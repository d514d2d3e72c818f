/** A filter tree means, compiled, what it means evaluated directly: every level
    by its own group operator, with skipped rules and emptied subgroups gone. */
module FilterMeaning {
  import opened Ast
  import opened Dialects
  import opened Emit
  import opened Placeholders
  import opened Conditions
  import opened Filters

  // ----- direct evaluation -------------------------------------------------------------------

  function SomeOf(truths: seq<Truth>): Truth {
    if truths == [] then False else Or3(truths[0], SomeOf(truths[1..]))
  }

  /** A rule on a row: its predicate, negated for the negated operators. */
  function RuleTruth(c: Compiler, env: Env, I: Reading, rule: Rule): Truth
    requires Ready(rule)
  {
    NotIf(RuleShape(rule).0, I(ShapeOut(c, env, false, RuleShape(rule).1, Nothing).sql))
  }

  /** What the surviving rules say, in order. */
  function RuleVerdicts(show: Data -> string, hooks: seq<Hook>, c: Compiler, env: Env, I: Reading, rules: seq<Rule>)
    : (truths: seq<Truth>)
    requires ResolveRules(show, hooks, rules).Ok?
  {
    if rules == [] then []
    else
      var rule := Chain(RuleStages(hooks), rules[0]).value;
      SurvivorReady(show, rule);
      (if Skipped(rule.op, rule.data) then [] else [RuleTruth(c, env, I, Surviving(show, rule)[0])])
      + RuleVerdicts(show, hooks, c, env, I, rules[1..])
  }

  lemma {:induction false} SurvivorReady(show: Data -> string, rule: Rule)
    requires RuleProblems(rule) == []
    ensures forall r <- Surviving(show, rule) :: Ready(r)
  {
  }

  /** A level without any surviving member says nothing. */
  function Verdict(show: Data -> string, hooks: seq<Hook>, c: Compiler, env: Env, I: Reading, f: Filter): Option<Truth>
    requires Resolve(show, hooks, f).Ok?
    decreases f, 2
  {
    var members := Members(show, hooks, c, env, I, f);
    if members == [] then None
    else Some(if f.groupOp == "or" then SomeOf(members) else AllOf(members))
  }

  function Members(show: Data -> string, hooks: seq<Hook>, c: Compiler, env: Env, I: Reading, f: Filter): seq<Truth>
    requires Resolve(show, hooks, f).Ok?
    decreases f, 1
  {
    RuleVerdicts(show, hooks, c, env, I, f.rules) + GroupVerdicts(show, hooks, c, env, I, f.groups)
  }

  function GroupVerdicts(show: Data -> string, hooks: seq<Hook>, c: Compiler, env: Env, I: Reading, groups: seq<Filter>)
    : seq<Truth>
    requires ResolveGroups(show, hooks, groups).Ok?
    decreases groups, 0
  {
    if groups == [] then []
    else
      (match Verdict(show, hooks, c, env, I, groups[0]) case Some(t) => [t] case None => [])
      + GroupVerdicts(show, hooks, c, env, I, groups[1..])
  }

  /** The values a rule binds. */
  function RuleData(rule: Rule): seq<Value>
    requires Ready(rule)
  {
    match RuleShape(rule).1
    case Basic(_, _, v) => [v]
    case In(_, values) => values
    case Like(_, pattern, text, _, _) => [Str(Wildcards(pattern, text))]
    case _ => []
  }

  /** The data of the surviving rules in pre-order, rules before subgroups. */
  function PreOrder(show: Data -> string, hooks: seq<Hook>, f: Filter): seq<Value>
    requires Resolve(show, hooks, f).Ok?
    decreases f, 1
  {
    RulesData(show, hooks, f.rules) + GroupsData(show, hooks, f.groups)
  }

  function RulesData(show: Data -> string, hooks: seq<Hook>, rules: seq<Rule>): seq<Value>
    requires ResolveRules(show, hooks, rules).Ok?
  {
    if rules == [] then []
    else
      var rule := Chain(RuleStages(hooks), rules[0]).value;
      SurvivorReady(show, rule);
      (if Skipped(rule.op, rule.data) then [] else RuleData(Surviving(show, rule)[0]))
      + RulesData(show, hooks, rules[1..])
  }

  function GroupsData(show: Data -> string, hooks: seq<Hook>, groups: seq<Filter>): seq<Value>
    requires ResolveGroups(show, hooks, groups).Ok?
    decreases groups, 0
  {
    if groups == [] then [] else PreOrder(show, hooks, groups[0]) + GroupsData(show, hooks, groups[1..])
  }

  /** What binding values in order appends to the arguments. */
  function Bound(env: Env, values: seq<Value>): seq<Value> {
    if values == [] then [] else Parameter(env, values[0]).args + Bound(env, values[1..])
  }

  lemma {:induction false} BoundConcat(env: Env, a: seq<Value>, b: seq<Value>)
    ensures Bound(env, a + b) == Bound(env, a) + Bound(env, b)
  {
    if a == [] {
      assert a + b == b;
    } else {
      assert (a + b)[1..] == a[1..] + b;
      BoundConcat(env, a[1..], b);
    }
  }

  /** Plain data is bound as it is. */
  lemma {:induction false} PlainBound(env: Env, values: seq<Value>)
    requires forall v <- values :: v.Plain()
    ensures Bound(env, values) == values
  {
    if values != [] {
      PlainBound(env, values[1..]);
      assert values[0].Plain() && Parameter(env, values[0]).args == [values[0]];
      assert values == [values[0]] + values[1..];
    }
  }

  // ----- what the landed conditions say ----------------------------------------------------------

  function Tagged(or: bool, truths: seq<Truth>): (items: seq<Item>)
    ensures |items| == |truths|
    ensures forall i :: 0 <= i < |items| ==> items[i] == Item(or, truths[i])
  {
    seq(|truths|, i requires 0 <= i < |truths| => Item(or, truths[i]))
  }

  /** Conditions that all carry one connective form one run, or only single ones. */
  lemma {:induction false} TaggedMeaning(or: bool, truths: seq<Truth>)
    requires truths != []
    ensures or ==> AnyOf(Runs(Tagged(or, truths))) == SomeOf(truths)
    ensures !or ==> Runs(Tagged(or, truths)) == [truths] && AnyOf(Runs(Tagged(or, truths))) == AllOf(truths)
  {
    var items := Tagged(or, truths);
    assert items[1..] == Tagged(or, truths[1..]);
    SingleRun(truths[0]);
    if |truths| == 1 {
      assert truths[1..] == [] && [truths[0]] == truths;
      assert Runs(items) == [[truths[0]]];
    } else {
      TaggedMeaning(or, truths[1..]);
      if or {
        assert Runs(items) == [[truths[0]]] + Runs(items[1..]);
        assert ([[truths[0]]] + Runs(items[1..]))[1..] == Runs(items[1..]);
      } else {
        assert [truths[0]] + truths[1..] == truths;
        assert [[truths[0]] + truths[1..]] + [] == [truths];
        OneRun(truths);
      }
    }
  }

  lemma {:induction false} SingleRun(truth: Truth)
    ensures AllOf([truth]) == truth && AnyOf([[truth]]) == truth
  {
    assert [truth][1..] == [];
    OneRun([truth]);
  }

  lemma {:induction false} OneRun(truths: seq<Truth>)
    ensures AnyOf([truths]) == AllOf(truths)
  {
    assert [truths][1..] == [];
  }

  lemma {:induction false} ItemsConcat(c: Compiler, env: Env, I: Reading, a: seq<Clause>, b: seq<Clause>)
    ensures Items(c, env, I, a + b) == Items(c, env, I, a) + Items(c, env, I, b)
  {
    hide Omitted, Says;
    if a == [] {
      assert a + b == b;
    } else {
      assert (a + b)[1..] == a[1..] + b;
      ItemsConcat(c, env, I, a[1..], b);
    }
  }

  lemma {:induction false} NoItems(c: Compiler, env: Env, I: Reading, cs: seq<Clause>)
    ensures Items(c, env, I, cs) == [] <==> OmittedAll(c, cs)
  {
    hide Omitted, Says;
    if cs != [] { NoItems(c, env, I, cs[1..]); }
  }

  lemma {:induction false} RuleSays(c: Compiler, env: Env, I: Reading, or: bool, rule: Rule)
    requires Ready(rule)
    ensures var cl := RuleClause(or, rule); !Omitted(c, cl) && Says(c, env, I, cl) == RuleTruth(c, env, I, rule)
  {
    hide ShapeOut;
  }

  lemma {:induction false} OneItem(c: Compiler, env: Env, I: Reading, cl: Clause)
    requires !Omitted(c, cl)
    ensures Items(c, env, I, [cl]) == [Item(cl.body.or, Says(c, env, I, cl))]
  {
    assert [cl][1..] == [];
    hide Says, Omitted;
  }

  function Truths(c: Compiler, env: Env, I: Reading, rules: seq<Rule>): seq<Truth>
    requires forall rule <- rules :: Ready(rule)
  {
    if rules == [] then [] else [RuleTruth(c, env, I, rules[0])] + Truths(c, env, I, rules[1..])
  }

  lemma {:induction false} VerdictsAreTruths(show: Data -> string, hooks: seq<Hook>, c: Compiler, env: Env, I: Reading,
                                             rules: seq<Rule>)
    requires ResolveRules(show, hooks, rules).Ok?
    requires forall rule <- ResolveRules(show, hooks, rules).value :: Ready(rule)
    ensures RuleVerdicts(show, hooks, c, env, I, rules) == Truths(c, env, I, ResolveRules(show, hooks, rules).value)
  {
    if rules != [] {
      ResolvedRulesReady(show, hooks, rules[1..]);
      VerdictsAreTruths(show, hooks, c, env, I, rules[1..]);
      var rule := Chain(RuleStages(hooks), rules[0]).value;
      var rest := ResolveRules(show, hooks, rules[1..]).value;
      SurvivorReady(show, rule);
      hide Ready, RuleTruth, Chain, Normalized, RuleProblems;
      var kept := Surviving(show, rule);
      if kept == [] {
        assert [] + rest == rest;
      } else {
        assert ([kept[0]] + rest)[1..] == rest;
      }
    }
  }

  lemma {:induction false} TaggedCons(or: bool, first: Truth, rest: seq<Truth>)
    ensures Tagged(or, [first] + rest) == [Item(or, first)] + Tagged(or, rest)
  {
  }

  lemma {:induction false} RuleItems(c: Compiler, env: Env, I: Reading, or: bool, rules: seq<Rule>)
    requires forall rule <- rules :: Ready(rule)
    ensures Items(c, env, I, RuleClauses(or, rules)) == Tagged(or, Truths(c, env, I, rules))
  {
    if rules != [] {
      hide RuleTruth, RuleShape, Ready, Says, Omitted, Items;
      RuleItems(c, env, I, or, rules[1..]);
      RuleSays(c, env, I, or, rules[0]);
      OneItem(c, env, I, RuleClause(or, rules[0]));
      TaggedCons(or, RuleTruth(c, env, I, rules[0]), Truths(c, env, I, rules[1..]));
      hide Tagged;
      ItemsConcat(c, env, I, [RuleClause(or, rules[0])], RuleClauses(or, rules[1..]));
    }
  }

  // ----- groups -------------------------------------------------------------------------------------

  /** What landing puts on a query: unscoped where conditions without date parts. */
  predicate Landable(cl: Clause) {
    cl.engine == "" && cl.body.Condition? && cl.body.section == Where && !cl.body.shape.DatePart?
  }

  lemma {:induction false} LandedAre(g: Resolved)
    requires ReadyTree(g)
    ensures forall cl <- Landed(g) :: Landable(cl)
  {
    RulesLandable(g.or, g.rules);
    GroupsLandable(g.or, g.groups);
  }

  lemma {:induction false} RulesLandable(or: bool, rules: seq<Rule>)
    requires forall rule <- rules :: Ready(rule)
    ensures forall cl <- RuleClauses(or, rules) :: Landable(cl)
  {
    if rules != [] { RulesLandable(or, rules[1..]); }
  }

  lemma {:induction false} GroupsLandable(or: bool, groups: seq<Resolved>)
    requires ReadyTrees(groups)
    ensures forall cl <- LandedGroups(or, groups) :: Landable(cl)
  {
    if groups != [] { GroupsLandable(or, groups[1..]); }
  }

  /** Every landed condition is seen by every dialect. */
  lemma {:induction false} AllSeen(cs: seq<Clause>, engine: string)
    requires forall cl <- cs :: Landable(cl)
    ensures Components(cs, Where, engine) == cs
  {
    if cs != [] {
      assert Landable(cs[0]);
      AllSeen(cs[1..], engine);
      assert cs == [cs[0]] + cs[1..];
    }
  }

  lemma {:induction false} AddedGroup(or: bool, g: Resolved)
    requires ReadyTree(g)
    ensures AddGroup(or, Landed(g)) ==
      if Landed(g) == [] then [] else [Clause("", Condition(Where, or, false, Nested(EmptyQuery.(clauses := Landed(g)))))]
  {
    LandedAre(g);
    if Landed(g) != [] { assert Landable(Landed(g)[0]) && Tag(Landed(g)[0]) == Where; }
  }

  lemma {:induction false} GroupSays(c: Compiler, env: Env, I: Reading, or: bool, inner: seq<Clause>)
    requires forall cl <- inner :: Landable(cl)
    ensures var cl := Clause("", Condition(Where, or, false, Nested(EmptyQuery.(clauses := inner))));
      Says(c, env, I, cl) == AnyOf(Runs(Items(c, env, I, inner))) && (Omitted(c, cl) <==> OmittedAll(c, inner))
  {
    hide AnyOf, Runs, Landable, Components, ShapeOut, EmitShape, RawOut, ExpressionTokens, EmitClauses, Visible;
    var cl := Clause("", Condition(Where, or, false, Nested(EmptyQuery.(clauses := inner))));
    AllSeen(inner, c.Engine());
    hide Items, OmittedAll;
    assert Inside(c, cl) == inner;
  }

  /** Nothing that is landed is omitted from the text. */
  lemma {:induction false} LandedShows(c: Compiler, g: Resolved)
    requires ReadyTree(g)
    ensures forall cl <- Landed(g) :: !Omitted(c, cl)
    decreases g, 1
  {
    RulesShow(c, g.or, g.rules);
    GroupsShow(c, g.or, g.groups);
  }

  lemma {:induction false} RulesShow(c: Compiler, or: bool, rules: seq<Rule>)
    requires forall rule <- rules :: Ready(rule)
    ensures forall cl <- RuleClauses(or, rules) :: !Omitted(c, cl)
  {
    if rules != [] {
      RulesShow(c, or, rules[1..]);
      assert !Omitted(c, RuleClause(or, rules[0]));
    }
  }

  lemma {:induction false} GroupsShow(c: Compiler, or: bool, groups: seq<Resolved>)
    requires ReadyTrees(groups)
    ensures forall cl <- LandedGroups(or, groups) :: !Omitted(c, cl)
    decreases groups, 0
  {
    if groups != [] {
      hide Landed, ReadyTree, AddGroup;
      LandedShows(c, groups[0]);
      GroupsShow(c, or, groups[1..]);
      AddedGroup(or, groups[0]);
      LandedAre(groups[0]);
      var inner := Landed(groups[0]);
      if inner != [] { GroupShows(c, or, inner); }
    }
  }

  lemma {:induction false} GroupShows(c: Compiler, or: bool, inner: seq<Clause>)
    requires inner != [] && forall cl <- inner :: Landable(cl) && !Omitted(c, cl)
    ensures !Omitted(c, Clause("", Condition(Where, or, false, Nested(EmptyQuery.(clauses := inner)))))
  {
    AllSeen(inner, c.Engine());
    hide Landable;
    assert inner[0] in inner && !OmittedAll(c, inner);
  }

  lemma {:induction false} TaggedConcat(or: bool, a: seq<Truth>, b: seq<Truth>)
    ensures Tagged(or, a + b) == Tagged(or, a) + Tagged(or, b)
  {
  }

  /** The landed conditions of a filter are its surviving members, joined by its
      group operator. */
  lemma {:induction false} FilterItems(show: Data -> string, hooks: seq<Hook>, c: Compiler, env: Env, I: Reading, f: Filter)
    requires Resolve(show, hooks, f).Ok? && ReadyTree(Resolve(show, hooks, f).value)
    ensures Items(c, env, I, Landed(Resolve(show, hooks, f).value))
         == Tagged(f.groupOp == "or", Members(show, hooks, c, env, I, f))
    decreases f, 1
  {
    var or := f.groupOp == "or";
    var g := Resolve(show, hooks, f).value;
    VerdictsAreTruths(show, hooks, c, env, I, f.rules);
    RuleItems(c, env, I, or, g.rules);
    GroupItems(show, hooks, c, env, I, or, f.groups);
    hide Items, ReadyTree, ReadyTrees, RuleClauses, LandedGroups, RuleVerdicts, GroupVerdicts, Truths, ResolveRules,
      ResolveGroups, Ready, Tagged;
    ItemsConcat(c, env, I, RuleClauses(or, g.rules), LandedGroups(or, g.groups));
    TaggedConcat(or, RuleVerdicts(show, hooks, c, env, I, f.rules), GroupVerdicts(show, hooks, c, env, I, f.groups));
  }

  lemma {:induction false} GroupItems(show: Data -> string, hooks: seq<Hook>, c: Compiler, env: Env, I: Reading, or: bool,
                                      groups: seq<Filter>)
    requires ResolveGroups(show, hooks, groups).Ok? && ReadyTrees(ResolveGroups(show, hooks, groups).value)
    ensures Items(c, env, I, LandedGroups(or, ResolveGroups(show, hooks, groups).value))
         == Tagged(or, GroupVerdicts(show, hooks, c, env, I, groups))
    decreases groups, 0
  {
    if groups != [] {
      var sub, rest := Resolve(show, hooks, groups[0]).value, ResolveGroups(show, hooks, groups[1..]).value;
      assert ([sub] + rest)[1..] == rest;
      hide Items, Verdict, Landed, ReadyTree, AddGroup, Resolve, Members;
      GroupItems(show, hooks, c, env, I, or, groups[1..]);
      FilterItems(show, hooks, c, env, I, groups[0]);
      FirstGroupItems(show, hooks, c, env, I, or, groups[0]);
      TaggedConcat(or, match Verdict(show, hooks, c, env, I, groups[0]) case Some(t) => [t] case None => [],
                   GroupVerdicts(show, hooks, c, env, I, groups[1..]));
      hide Tagged;
      ItemsConcat(c, env, I, AddGroup(or, Landed(sub)), LandedGroups(or, rest));
    }
  }

  lemma {:induction false} FirstGroupItems(show: Data -> string, hooks: seq<Hook>, c: Compiler, env: Env, I: Reading, or: bool,
                                           f: Filter)
    requires Resolve(show, hooks, f).Ok? && ReadyTree(Resolve(show, hooks, f).value)
    requires Items(c, env, I, Landed(Resolve(show, hooks, f).value))
          == Tagged(f.groupOp == "or", Members(show, hooks, c, env, I, f))
    ensures Items(c, env, I, AddGroup(or, Landed(Resolve(show, hooks, f).value)))
         == Tagged(or, match Verdict(show, hooks, c, env, I, f) case Some(t) => [t] case None => [])
  {
    var inner := Landed(Resolve(show, hooks, f).value);
    var members := Members(show, hooks, c, env, I, f);
    var cl := Clause("", Condition(Where, or, false, Nested(EmptyQuery.(clauses := inner))));
    LandedAre(Resolve(show, hooks, f).value);
    AddedGroup(or, Resolve(show, hooks, f).value);
    LandedShows(c, Resolve(show, hooks, f).value);
    NoItems(c, env, I, inner);
    NoItems(c, env, I, []);
    GroupSays(c, env, I, or, inner);
    hide Items, Says, Omitted, Members, AddGroup, Landed, ReadyTree, AnyOf, Runs, Landable;
    if inner != [] {
      assert inner[0] in inner && !OmittedAll(c, inner);
      TaggedMeaning(f.groupOp == "or", members);
      OneItem(c, env, I, cl);
    } else {
      assert OmittedAll(c, inner) && members == [];
    }
  }

  // ----- arguments ----------------------------------------------------------------------------------------

  /** The arguments of a condition list are those of its conditions in order. */
  function ArgsOf(parts: seq<Out>): seq<Value> {
    if parts == [] then [] else parts[0].args + ArgsOf(parts[1..])
  }

  lemma {:induction false} ConnectArgs(cs: seq<Clause>, parts: seq<Out>, started: bool)
    requires |cs| == |parts|
    ensures Connect(cs, parts, started).args == ArgsOf(parts)
  {
    if cs != [] {
      ConnectArgs(cs[1..], parts[1..], started || parts[0].sql != []);
      assert [] + parts[0].args == parts[0].args;
    }
  }

  lemma {:induction false} EmitConcat(c: Compiler, env: Env, a: seq<Clause>, b: seq<Clause>)
    ensures ArgsOf(EmitClauses(c, env, a + b)) == ArgsOf(EmitClauses(c, env, a)) + ArgsOf(EmitClauses(c, env, b))
  {
    hide EmitClause;
    if a == [] {
      assert a + b == b;
    } else {
      assert (a + b)[1..] == a[1..] + b;
      EmitConcat(c, env, a[1..], b);
    }
  }

  lemma {:induction false} JoinedArgs(env: Env, values: seq<Value>)
    ensures Parameterize(env, values).args == Bound(env, values)
  {
    if |values| > 1 {
      JoinedArgs(env, values[1..]);
      assert ParameterParts(env, values)[1..] == ParameterParts(env, values[1..]);
    } else if |values| == 1 {
      assert values[1..] == [];
    }
  }

  lemma {:induction false} RuleArgs(c: Compiler, env: Env, or: bool, rule: Rule)
    requires Ready(rule)
    ensures EmitClause(c, env, RuleClause(or, rule)).args == Bound(env, RuleData(rule))
  {
    var (not, shape) := RuleShape(rule);
    FlatPrints(c, env, RuleClause(or, rule));
    match shape
    case Basic(_, _, v) => assert [v][1..] == [];
    case In(_, values) => JoinedArgs(env, values);
    case Like(_, pattern, text, _, _) => assert [Str(Wildcards(pattern, text))][1..] == [];
    case _ =>
  }

  lemma {:induction false} OneArgs(c: Compiler, env: Env, cl: Clause)
    ensures ArgsOf(EmitClauses(c, env, [cl])) == EmitClause(c, env, cl).args
  {
    hide EmitClause;
    assert [cl][1..] == [];
    assert EmitClauses(c, env, [cl]) == [EmitClause(c, env, cl)];
    assert [EmitClause(c, env, cl)][1..] == [];
  }

  lemma {:induction false} RulesArgs(show: Data -> string, hooks: seq<Hook>, c: Compiler, env: Env, or: bool, rules: seq<Rule>)
    requires ResolveRules(show, hooks, rules).Ok?
    requires forall rule <- ResolveRules(show, hooks, rules).value :: Ready(rule)
    ensures ArgsOf(EmitClauses(c, env, RuleClauses(or, ResolveRules(show, hooks, rules).value)))
         == Bound(env, RulesData(show, hooks, rules))
  {
    if rules != [] {
      ResolvedRulesReady(show, hooks, rules[1..]);
      RulesArgs(show, hooks, c, env, or, rules[1..]);
      var rule := Chain(RuleStages(hooks), rules[0]).value;
      var rest := ResolveRules(show, hooks, rules[1..]).value;
      SurvivorReady(show, rule);
      var kept := Surviving(show, rule);
      if kept == [] {
        assert [] + rest == rest;
        assert RulesData(show, hooks, rules) == RulesData(show, hooks, rules[1..]);
      } else {
        assert ([kept[0]] + rest)[1..] == rest;
        RuleArgs(c, env, or, kept[0]);
        OneArgs(c, env, RuleClause(or, kept[0]));
        hide Ready, RuleData, Chain, Normalized, RuleProblems, EmitClause, RuleClause, EmitClauses, Skipped;
        EmitConcat(c, env, [RuleClause(or, kept[0])], RuleClauses(or, rest));
        BoundConcat(env, RuleData(kept[0]), RulesData(show, hooks, rules[1..]));
      }
    }
  }

  lemma {:induction false} FilterArgs(show: Data -> string, hooks: seq<Hook>, c: Compiler, env: Env, f: Filter)
    requires Resolve(show, hooks, f).Ok? && ReadyTree(Resolve(show, hooks, f).value)
    ensures ArgsOf(EmitClauses(c, env, Landed(Resolve(show, hooks, f).value))) == Bound(env, PreOrder(show, hooks, f))
    decreases f, 1
  {
    var or := f.groupOp == "or";
    var g := Resolve(show, hooks, f).value;
    RulesArgs(show, hooks, c, env, or, f.rules);
    GroupsArgs(show, hooks, c, env, or, f.groups);
    hide ReadyTree, ReadyTrees, RuleClauses, LandedGroups, ResolveRules, ResolveGroups, Ready, Bound, EmitClauses, ArgsOf;
    EmitConcat(c, env, RuleClauses(or, g.rules), LandedGroups(or, g.groups));
    BoundConcat(env, RulesData(show, hooks, f.rules), GroupsData(show, hooks, f.groups));
  }

  lemma {:induction false} GroupsArgs(show: Data -> string, hooks: seq<Hook>, c: Compiler, env: Env, or: bool, groups: seq<Filter>)
    requires ResolveGroups(show, hooks, groups).Ok? && ReadyTrees(ResolveGroups(show, hooks, groups).value)
    ensures ArgsOf(EmitClauses(c, env, LandedGroups(or, ResolveGroups(show, hooks, groups).value)))
         == Bound(env, GroupsData(show, hooks, groups))
    decreases groups, 0
  {
    if groups != [] {
      var sub, rest := Resolve(show, hooks, groups[0]).value, ResolveGroups(show, hooks, groups[1..]).value;
      assert ([sub] + rest)[1..] == rest;
      GroupsArgs(show, hooks, c, env, or, groups[1..]);
      FilterArgs(show, hooks, c, env, groups[0]);
      AddedArgs(c, env, or, sub);
      hide Landed, ReadyTree, AddGroup, Bound, EmitClauses, ArgsOf;
      EmitConcat(c, env, AddGroup(or, Landed(sub)), LandedGroups(or, rest));
      BoundConcat(env, PreOrder(show, hooks, groups[0]), GroupsData(show, hooks, groups[1..]));
    }
  }

  /** A group binds what its conditions bind. */
  lemma {:induction false} AddedArgs(c: Compiler, env: Env, or: bool, g: Resolved)
    requires ReadyTree(g)
    ensures ArgsOf(EmitClauses(c, env, AddGroup(or, Landed(g)))) == ArgsOf(EmitClauses(c, env, Landed(g)))
  {
    AddedGroup(or, g);
    LandedAre(g);
    var inner := Landed(g);
    AllSeen(inner, c.Engine());
    if inner != [] {
      var cl := Clause("", Condition(Where, or, false, Nested(EmptyQuery.(clauses := inner))));
      OneArgs(c, env, cl);
      ConnectArgs(inner, EmitClauses(c, env, inner), false);
      NestedArgs(c, env, cl, inner);
    }
  }

  lemma {:induction false} NestedArgs(c: Compiler, env: Env, cl: Clause, inner: seq<Clause>)
    requires cl.body.Condition? && cl.body.shape == Nested(EmptyQuery.(clauses := inner))
    requires Components(inner, Where, c.Engine()) == inner
    ensures EmitClause(c, env, cl).args == Connect(inner, EmitClauses(c, env, inner), false).args
  {
    hide Connect, EmitClauses, Components, Parameter, Parameterize, LikeOut, DateOut, RawOut;
    assert EmitShape(c, env, cl.body.shape) == EmitGroup(c, env, cl.body.shape.group);
  }

  // ----- the main result -------------------------------------------------------------------------------------

  lemma {:induction false} LandedBuilt(g: Resolved)
    requires ReadyTree(g)
    ensures Built(Landed(g))
    decreases g, 1
  {
    var rules, groups := RuleClauses(g.or, g.rules), LandedGroups(g.or, g.groups);
    RulesBuilt(g.or, g.rules);
    GroupsBuilt(g.or, g.groups);
    BuiltConcat(rules, groups);
  }

  lemma {:induction false} BuiltConcat(a: seq<Clause>, b: seq<Clause>)
    requires Built(a) && Built(b)
    ensures Built(a + b)
  {
    forall i | 0 <= i < |a + b| ensures BuiltClause((a + b)[i]) {
      if i < |a| { assert BuiltClause(a[i]); } else { assert BuiltClause(b[i - |a|]); }
    }
  }

  lemma {:induction false} RulesBuilt(or: bool, rules: seq<Rule>)
    requires forall rule <- rules :: Ready(rule)
    ensures Built(RuleClauses(or, rules))
  {
    if rules != [] {
      RulesBuilt(or, rules[1..]);
      assert BuiltClause(RuleClause(or, rules[0]));
      BuiltConcat([RuleClause(or, rules[0])], RuleClauses(or, rules[1..]));
    }
  }

  lemma {:induction false} GroupsBuilt(or: bool, groups: seq<Resolved>)
    requires ReadyTrees(groups)
    ensures Built(LandedGroups(or, groups))
    decreases groups, 0
  {
    if groups != [] {
      LandedBuilt(groups[0]);
      GroupsBuilt(or, groups[1..]);
      AddedGroup(or, groups[0]);
      var inner := Landed(groups[0]);
      if inner != [] {
        assert BuiltClause(Clause("", Condition(Where, or, false, Nested(EmptyQuery.(clauses := inner)))));
      }
      BuiltConcat(AddGroup(or, inner), LandedGroups(or, groups[1..]));
    }
  }

  /** The WHERE section printed for a filter tree of any depth binds the data of the
      surviving rules in pre-order, is absent exactly when nothing survives, and
      read back by the grammar says on every row what the tree says. */
  lemma {:induction false} FilterPreserved(show: Data -> string, hooks: seq<Hook>, c: Compiler, env: Env, I: Reading, f: Filter)
    requires Resolve(show, hooks, f).Ok? && Lawful(I)
    ensures ReadyTree(Resolve(show, hooks, f).value)
    ensures var cs := Landed(Resolve(show, hooks, f).value);
      var o := ConditionSection("WHERE", cs, EmitClauses(c, env, cs));
      && o.args == Bound(env, PreOrder(show, hooks, f))
      && match Verdict(show, hooks, c, env, I, f)
         case None => o.sql == []
         case Some(truth) =>
           o.sql != [] && o.sql[0] == Sym("WHERE") &&
           var p := ParseCondition(o.sql[1..]);
           p.Some? && p.value.rest == [] && EvalTerms(I, p.value.value) == truth
  {
    hide Resolve, Lawful, EvalTerms, Components, Items, Landed, ReadyTree, Members, Connect, EmitClauses,
      ParseCondition, Runs, AnyOf, Built, ArgsOf, PreOrder, Bound, Tagged, Landable, Omitted;
    ResolvedReady(show, hooks, f);
    var g := Resolve(show, hooks, f).value;
    var cs := Landed(g);
    LandedAre(g);
    LandedBuilt(g);
    AllSeen(cs, c.Engine());
    FilterItems(show, hooks, c, env, I, f);
    FilterArgs(show, hooks, c, env, f);
    SectionMeans(c, env, I, cs, Where, "WHERE");
    NoItems(c, env, I, cs);
    ConnectArgs(cs, EmitClauses(c, env, cs), false);
    var members := Members(show, hooks, c, env, I, f);
    if members != [] { TaggedMeaning(f.groupOp == "or", members); }
  }
}
