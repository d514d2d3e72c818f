/** The condition tree of the wire format: resolving it through hooks, landing it
    on the builder, and what the landed conditions mean. */
module Filters {
  import opened Ast
  import opened Dialects
  import opened Emit
  import opened Placeholders
  import opened Conditions

  // ----- the wire format -------------------------------------------------------------------

  /** A rule's data: a scalar (null included) or an array of any element type. */
  datatype Data = Scalar(value: Value) | Many(values: seq<Value>)

  datatype Rule = Rule(field: string, op: string, data: Data)

  datatype Filter = Filter(groupOp: string, rules: seq<Rule>, groups: seq<Filter>)

  datatype Problem =
    | FromRequired
    | BadGroupOp(value: string)
    | FieldRequired
    | BadOp(field: string, op: string)
    | ByRequired
    | BadDirection(column: string, xsc: string)
    | Negative(field: string, amount: int)
    | Denied(reason: int)           // an error of a hook's own

  datatype Result<+T> = Ok(value: T) | Err(problems: seq<Problem>)

  const Comparisons: map<string, string> :=
    map["eq" := "=", "ne" := "!=", "lt" := "<", "le" := "<=", "gt" := ">", "ge" := ">="]

  const Likes: map<string, (bool, string)> :=
    map["bw" := (false, "starts"), "bn" := (true, "starts"), "ew" := (false, "ends"), "en" := (true, "ends"),
        "cn" := (false, "contains"), "nc" := (true, "contains")]

  predicate KnownOp(op: string) {
    op in Comparisons || op in Likes || op in {"in", "ni", "is", "ns"}
  }

  function RuleProblems(rule: Rule): seq<Problem> {
    (if rule.field == "" then [FieldRequired] else [])
    + (if !KnownOp(rule.op) then [BadOp(rule.field, rule.op)] else [])
  }

  function RulesProblems(rules: seq<Rule>): seq<Problem> {
    if rules == [] then [] else RuleProblems(rules[0]) + RulesProblems(rules[1..])
  }

  /** Rules with empty data are validated like any other. */
  function FilterProblems(f: Filter): seq<Problem>
    decreases f, 1
  {
    (if f.groupOp != "" && f.groupOp != "and" && f.groupOp != "or" then [BadGroupOp(f.groupOp)] else [])
    + RulesProblems(f.rules) + GroupsProblems(f.groups)
  }

  function GroupsProblems(groups: seq<Filter>): seq<Problem>
    decreases groups, 0
  {
    if groups == [] then [] else FilterProblems(groups[0]) + GroupsProblems(groups[1..])
  }

  /** Grows the error list as the loops over rules and subgroups do. */
  method Validate(f: Filter) returns (errs: seq<Problem>)
    ensures errs == FilterProblems(f)
    decreases f
  {
    errs := [];
    if f.groupOp != "" && f.groupOp != "and" && f.groupOp != "or" {
      errs := errs + [BadGroupOp(f.groupOp)];
    }
    ghost var start := errs;
    assert f.rules[0..] == f.rules && f.groups[0..] == f.groups;
    for i := 0 to |f.rules|
      invariant errs + RulesProblems(f.rules[i..]) == start + RulesProblems(f.rules)
    {
      assert f.rules[i..][1..] == f.rules[i + 1..];
      errs := errs + RuleProblems(f.rules[i]);
    }
    assert f.rules[|f.rules|..] == [] && errs + [] == errs;
    ghost var middle := errs;
    for i := 0 to |f.groups|
      invariant errs + GroupsProblems(f.groups[i..]) == middle + GroupsProblems(f.groups)
    {
      assert f.groups[i..][1..] == f.groups[i + 1..];
      var more := Validate(f.groups[i]);
      errs := errs + more;
    }
    assert f.groups[|f.groups|..] == [] && errs + [] == errs;
  }

  // ----- resolving -----------------------------------------------------------------------------

  /** A hook, with one function for every pointcut. */
  datatype Hook = Hook(
    from: seq<string> -> Result<seq<string>>, select: string -> Result<string>,
    orderBy: string -> Result<string>, rule: Rule -> Result<Rule>)

  /** A value goes through the stages in order; the first error aborts. */
  function Chain<T>(stages: seq<T -> Result<T>>, value: T): Result<T> {
    if stages == [] then Ok(value)
    else
      match stages[0](value)
      case Ok(next) => Chain(stages[1..], next)
      case Err(problems) => Err(problems)
  }

  method RunChain<T>(stages: seq<T -> Result<T>>, value: T) returns (r: Result<T>)
    ensures r == Chain(stages, value)
  {
    var current := value;
    for i := 0 to |stages|
      invariant Chain(stages, value) == Chain(stages[i..], current)
    {
      assert stages[i..][1..] == stages[i + 1..];
      var next := stages[i](current);
      if next.Err? { return Err(next.problems); }
      current := next.value;
    }
    return Ok(current);
  }

  function RuleStages(hooks: seq<Hook>): (stages: seq<Rule -> Result<Rule>>)
    ensures |stages| == |hooks|
  {
    seq(|hooks|, i requires 0 <= i < |hooks| => hooks[i].rule)
  }

  /** Null tests use no data; every other rule is skipped when its data is null, an
      empty string or an empty array. */
  predicate Skipped(op: string, data: Data) {
    op != "is" && op != "ns" &&
    match data
    case Scalar(v) => v == Null || v == Str("")
    case Many(values) => values == []
  }

  function ValuesOf(data: Data): seq<Value> {
    match data case Scalar(v) => [v] case Many(values) => values
  }

  /** The set operators take a list, the pattern operators the default text form
      of the data (`show`); the rest take it as it is. */
  function Normalized(show: Data -> string, op: string, data: Data): Data {
    if op == "in" || op == "ni" then Many(ValuesOf(data))
    else if op in Likes then Scalar(Str(show(data)))
    else data
  }

  function Surviving(show: Data -> string, rule: Rule): seq<Rule> {
    if Skipped(rule.op, rule.data) then [] else [rule.(data := Normalized(show, rule.op, rule.data))]
  }

  /** The tree after the hooks and the removal of empty rules. */
  datatype Resolved = Resolved(or: bool, rules: seq<Rule>, groups: seq<Resolved>)

  /** A rewritten rule is validated again: a hook can tighten validation only. */
  function ResolveRules(show: Data -> string, hooks: seq<Hook>, rules: seq<Rule>): Result<seq<Rule>> {
    if rules == [] then Ok([])
    else
      match Chain(RuleStages(hooks), rules[0])
      case Err(problems) => Err(problems)
      case Ok(rule) =>
        if RuleProblems(rule) != [] then Err(RuleProblems(rule))
        else
          match ResolveRules(show, hooks, rules[1..])
          case Err(problems) => Err(problems)
          case Ok(rest) =>
            Ok(Surviving(show, rule) + rest)
  }

  function Resolve(show: Data -> string, hooks: seq<Hook>, f: Filter): Result<Resolved>
    decreases f, 1
  {
    match ResolveRules(show, hooks, f.rules)
    case Err(problems) => Err(problems)
    case Ok(rules) =>
      match ResolveGroups(show, hooks, f.groups)
      case Err(problems) => Err(problems)
      case Ok(groups) => Ok(Resolved(f.groupOp == "or", rules, groups))
  }

  function ResolveGroups(show: Data -> string, hooks: seq<Hook>, groups: seq<Filter>): Result<seq<Resolved>>
    decreases groups, 0
  {
    if groups == [] then Ok([])
    else
      match Resolve(show, hooks, groups[0])
      case Err(problems) => Err(problems)
      case Ok(sub) =>
        match ResolveGroups(show, hooks, groups[1..])
        case Err(problems) => Err(problems)
        case Ok(rest) => Ok([sub] + rest)
  }

  function Prefixed<T>(done: seq<T>, rest: Result<seq<T>>): Result<seq<T>> {
    match rest case Ok(more) => Ok(done + more) case Err(problems) => Err(problems)
  }

  lemma {:induction false} NothingBefore<T>(rest: Result<seq<T>>)
    ensures Prefixed([], rest) == rest
  {
    if rest.Ok? { assert [] + rest.value == rest.value; }
  }

  lemma {:induction false} PrefixedTwice<T>(a: seq<T>, b: seq<T>, rest: Result<seq<T>>)
    ensures Prefixed(a, Prefixed(b, rest)) == Prefixed(a + b, rest)
  {
    if rest.Ok? { assert a + (b + rest.value) == (a + b) + rest.value; }
  }

  /** The loops of the resolver: the first error aborts, survivors accumulate. */
  method ResolveFilter(show: Data -> string, hooks: seq<Hook>, f: Filter) returns (r: Result<Resolved>)
    ensures r == Resolve(show, hooks, f)
    decreases f
  {
    hide Skipped, Normalized, RuleProblems, Chain, RuleStages;
    var rules: seq<Rule> := [];
    NothingBefore(ResolveRules(show, hooks, f.rules));
    NothingBefore(ResolveGroups(show, hooks, f.groups));
    assert f.rules[0..] == f.rules && f.groups[0..] == f.groups;
    for i := 0 to |f.rules|
      invariant ResolveRules(show, hooks, f.rules) == Prefixed(rules, ResolveRules(show, hooks, f.rules[i..]))
    {
      assert f.rules[i..][1..] == f.rules[i + 1..];
      var hooked := RunChain(RuleStages(hooks), f.rules[i]);
      if hooked.Err? { return Err(hooked.problems); }
      var rule := hooked.value;
      if RuleProblems(rule) != [] { return Err(RuleProblems(rule)); }
      ghost var rest := ResolveRules(show, hooks, f.rules[i + 1..]);
      if !Skipped(rule.op, rule.data) {
        PrefixedTwice(rules, [rule.(data := Normalized(show, rule.op, rule.data))], rest);
        rules := rules + [rule.(data := Normalized(show, rule.op, rule.data))];
      } else {
        NothingBefore(rest);
      }
    }
    assert f.rules[|f.rules|..] == [] && rules + [] == rules;
    assert ResolveRules(show, hooks, f.rules) == Ok(rules);
    var groups: seq<Resolved> := [];
    for i := 0 to |f.groups|
      invariant ResolveGroups(show, hooks, f.groups) == Prefixed(groups, ResolveGroups(show, hooks, f.groups[i..]))
    {
      assert f.groups[i..][1..] == f.groups[i + 1..];
      var sub := ResolveFilter(show, hooks, f.groups[i]);
      if sub.Err? { return Err(sub.problems); }
      PrefixedTwice(groups, [sub.value], ResolveGroups(show, hooks, f.groups[i + 1..]));
      groups := groups + [sub.value];
    }
    assert f.groups[|f.groups|..] == [] && groups + [] == groups;
    assert ResolveGroups(show, hooks, f.groups) == Ok(groups);
    return Ok(Resolved(f.groupOp == "or", rules, groups));
  }

  // ----- landing on the builder --------------------------------------------------------------------

  /** What every resolved rule satisfies. */
  predicate Ready(rule: Rule) {
    && rule.field != "" && KnownOp(rule.op) && !(rule.op in Comparisons && Skipped(rule.op, rule.data))
    && (rule.op in Likes ==> rule.data.Scalar? && rule.data.value.Str?)
    && (rule.op == "in" || rule.op == "ni" ==> rule.data.Many? && rule.data.values != [])
  }

  predicate ReadyTree(g: Resolved)
    decreases g, 1
  {
    (forall rule <- g.rules :: Ready(rule)) && ReadyTrees(g.groups)
  }

  predicate ReadyTrees(groups: seq<Resolved>)
    decreases groups, 0
  {
    groups == [] || (ReadyTree(groups[0]) && ReadyTrees(groups[1..]))
  }

  /** The value a comparison binds; an array is bound as one argument. */
  function Compared(data: Data): Value {
    match data case Scalar(v) => v case Many(values) => ListValue(values)
  }

  /** The condition of a rule: its negation flag and shape. */
  function RuleShape(rule: Rule): (bool, Shape)
    requires Ready(rule)
  {
    if rule.op in Comparisons then (false, Basic(rule.field, Comparisons[rule.op], Compared(rule.data)))
    else if rule.op in Likes then
      (Likes[rule.op].0, Like(rule.field, Likes[rule.op].1, rule.data.value.s, true, ""))
    else if rule.op == "in" || rule.op == "ni" then (rule.op == "ni", In(rule.field, rule.data.values))
    else (rule.op == "ns", IsNull(rule.field))
  }

  function RuleClause(or: bool, rule: Rule): Clause
    requires Ready(rule)
  {
    Clause("", Condition(Where, or, RuleShape(rule).0, RuleShape(rule).1))
  }

  function RuleClauses(or: bool, rules: seq<Rule>): seq<Clause>
    requires forall rule <- rules :: Ready(rule)
  {
    if rules == [] then [] else [RuleClause(or, rules[0])] + RuleClauses(or, rules[1..])
  }

  /** A group is appended unless its callback produced no where clause. */
  function AddGroup(or: bool, inner: seq<Clause>): seq<Clause> {
    if exists cl <- inner :: Tag(cl) == Where then
      [Clause("", Condition(Where, or, false, Nested(EmptyQuery.(clauses := inner))))]
    else []
  }

  function Landed(g: Resolved): seq<Clause>
    requires ReadyTree(g)
    decreases g, 1
  {
    RuleClauses(g.or, g.rules) + LandedGroups(g.or, g.groups)
  }

  function LandedGroups(or: bool, groups: seq<Resolved>): seq<Clause>
    requires ReadyTrees(groups)
    decreases groups, 0
  {
    if groups == [] then [] else AddGroup(or, Landed(groups[0])) + LandedGroups(or, groups[1..])
  }

  /** Appends rule by rule and group by group to the query's clauses; a group's
      callback starts from a blank query. */
  method Land(g: Resolved, clauses: seq<Clause>) returns (out: seq<Clause>)
    requires ReadyTree(g)
    ensures out == clauses + Landed(g)
    decreases g
  {
    hide AddGroup, RuleClause, Ready;
    out := clauses;
    assert g.rules[0..] == g.rules && g.groups[0..] == g.groups;
    for i := 0 to |g.rules|
      invariant out + RuleClauses(g.or, g.rules[i..]) == clauses + RuleClauses(g.or, g.rules)
    {
      assert g.rules[i..][1..] == g.rules[i + 1..];
      ghost var rest := RuleClauses(g.or, g.rules[i + 1..]);
      assert out + ([RuleClause(g.or, g.rules[i])] + rest) == (out + [RuleClause(g.or, g.rules[i])]) + rest;
      out := out + [RuleClause(g.or, g.rules[i])];
    }
    assert g.rules[|g.rules|..] == [] && out + [] == out;
    ghost var middle := out;
    for i := 0 to |g.groups|
      invariant ReadyTrees(g.groups[i..])
      invariant out + LandedGroups(g.or, g.groups[i..]) == middle + LandedGroups(g.or, g.groups)
    {
      assert g.groups[i..][1..] == g.groups[i + 1..];
      var inner := Land(g.groups[i], []);
      assert inner == Landed(g.groups[i]);
      ghost var rest := LandedGroups(g.or, g.groups[i + 1..]);
      assert out + (AddGroup(g.or, inner) + rest) == (out + AddGroup(g.or, inner)) + rest;
      out := out + AddGroup(g.or, inner);
    }
    assert g.groups[|g.groups|..] == [] && out + [] == out;
  }

  /** Whatever the hooks rewrite, the resolved tree can be landed. */
  lemma {:induction false} ResolvedRulesReady(show: Data -> string, hooks: seq<Hook>, rules: seq<Rule>)
    requires ResolveRules(show, hooks, rules).Ok?
    ensures forall rule <- ResolveRules(show, hooks, rules).value :: Ready(rule)
  {
    if rules != [] {
      ResolvedRulesReady(show, hooks, rules[1..]);
    }
  }

  lemma {:induction false} ResolvedReady(show: Data -> string, hooks: seq<Hook>, f: Filter)
    requires Resolve(show, hooks, f).Ok?
    ensures ReadyTree(Resolve(show, hooks, f).value)
    decreases f, 1
  {
    ResolvedRulesReady(show, hooks, f.rules);
    ResolvedGroupsReady(show, hooks, f.groups);
  }

  lemma {:induction false} ResolvedGroupsReady(show: Data -> string, hooks: seq<Hook>, groups: seq<Filter>)
    requires ResolveGroups(show, hooks, groups).Ok?
    ensures ReadyTrees(ResolveGroups(show, hooks, groups).value)
    decreases groups, 0
  {
    if groups != [] {
      ResolvedReady(show, hooks, groups[0]);
      ResolvedGroupsReady(show, hooks, groups[1..]);
      var first, rest := Resolve(show, hooks, groups[0]).value, ResolveGroups(show, hooks, groups[1..]).value;
      assert ([first] + rest)[1..] == rest;
    }
  }
}
