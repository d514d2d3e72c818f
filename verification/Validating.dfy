/** The first pass as the compiler runs it: loops that grow the list of problems. */
module Validating {
  import opened Ast
  import opened Dialects
  import opened Variables
  import opened Validation
  import C = Ctes
  import S = Strings

  method CheckConditions(c: Compiler, cs: seq<Clause>) returns (errs: seq<Problem>)
    ensures errs == ConditionsProblems(c, cs)
  {
    hide ConditionProblems;
    errs := [];
    assert cs[0..] == cs;
    for i := 0 to |cs|
      invariant errs + ConditionsProblems(c, cs[i..]) == ConditionsProblems(c, cs)
    {
      assert cs[i..][1..] == cs[i + 1..];
      ghost var before, rest := errs, ConditionsProblems(c, cs[i + 1..]);
      var here := CheckCondition(c, cs[i]);
      errs := errs + here;
      assert before + (here + rest) == errs + rest;
    }
    assert cs[|cs|..] == [] && errs + [] == errs;
  }

  method CheckCondition(c: Compiler, cl: Clause) returns (errs: seq<Problem>)
    ensures errs == ConditionProblems(c, cl)
  {
    errs := [];
    var operator := ConditionOperator(cl);
    if operator.Some? && !c.Allows(operator.value.0) {
      errs := errs + [OperatorNotAllowed(operator.value.1, operator.value.0)];
    }
    if cl.body.Condition? && cl.body.shape.Like? && cl.body.shape.escape != "" && !ValidEscape(cl.body.shape.escape) {
      errs := errs + [InvalidEscape(cl.body.shape.escape)];
    }
  }

  method CheckCte(cl: Clause) returns (errs: seq<Problem>)
    ensures errs == CteProblems(cl)
  {
    if Blank(C.Alias(cl)) { return [CteMissingAlias]; }
    if !cl.body.TableCte? { return []; }
    var TableCte(alias, columns, rows) := cl.body;
    if columns == [] || rows == [] { return [InvalidCteTable(alias, |columns|, |rows|, 0)]; }
    assert rows[0..] == rows;
    for i := 0 to |rows|
      invariant BadRow(|columns|, rows) == BadRow(|columns|, rows[i..])
    {
      assert rows[i..][1..] == rows[i + 1..];
      if |rows[i]| != |columns| { return [InvalidCteTable(alias, |columns|, |rows|, |rows[i]|)]; }
    }
    assert rows[|rows|..] == [];
    return [];
  }

  method CheckCtes(cs: seq<Clause>) returns (errs: seq<Problem>)
    ensures errs == CtesProblems(cs)
  {
    hide CteProblems;
    errs := [];
    assert cs[0..] == cs;
    for i := 0 to |cs|
      invariant errs + CtesProblems(cs[i..]) == CtesProblems(cs)
    {
      assert cs[i..][1..] == cs[i + 1..];
      ghost var before, rest := errs, CtesProblems(cs[i + 1..]);
      var here := CheckCte(cs[i]);
      errs := errs + here;
      assert before + (here + rest) == errs + rest;
    }
    assert cs[|cs|..] == [] && errs + [] == errs;
  }

  lemma {:induction false} EmptyChain()
    ensures Flatten(Nil) == map[]
  {
  }

  /** References are looked up on the chain; value tables have none. */
  method CheckVariables(cl: Clause, scope: Scope) returns (errs: seq<Problem>)
    ensures errs == VariableProblems(cl, Flatten(scope))
  {
    EmptyChain();
    hide Flatten, ValuesOf, UndefinedIn;
    var chain := if cl.body.TableCte? then Nil else scope;
    var values := ValuesOf(cl);
    ghost var env := Flatten(chain);
    errs := [];
    assert values[0..] == values;
    for i := 0 to |values|
      invariant errs + UndefinedIn(values[i..], env) == UndefinedIn(values, env)
    {
      assert values[i..][1..] == values[i + 1..];
      ghost var before, rest := errs, UndefinedIn(values[i + 1..], env);
      ghost var here: seq<Problem> := [];
      UndefinedStep(values, i, env);
      if values[i].Variable? {
        var found := Lookup(chain, values[i].name);
        if found.None? {
          here := [VariableNotDefined(values[i].name)];
          errs := errs + [VariableNotDefined(values[i].name)];
        }
      }
      assert before + (here + rest) == (before + here) + rest;
    }
    UndefinedEnds(values, env);
    assert errs + [] == errs;
  }

  lemma {:induction false} UndefinedStep(values: seq<Value>, i: nat, env: Env)
    requires i < |values|
    ensures UndefinedIn(values[i..], env) == (match values[i]
       case Variable(name) => if name in env then [] else [VariableNotDefined(name)]
       case _ => []) + UndefinedIn(values[i + 1..], env)
  {
    assert values[i..][1..] == values[i + 1..];
  }

  lemma {:induction false} UndefinedEnds(values: seq<Value>, env: Env)
    ensures UndefinedIn(values[|values|..], env) == []
  {
  }

  method CheckAllVariables(cs: seq<Clause>, scope: Scope) returns (errs: seq<Problem>)
    ensures errs == VariablesProblems(cs, Flatten(scope))
  {
    hide Flatten, VariableProblems, VariablesProblems;
    ghost var env := Flatten(scope);
    errs := [];
    assert cs[0..] == cs;
    for i := 0 to |cs|
      invariant errs + VariablesProblems(cs[i..], env) == VariablesProblems(cs, env)
    {
      VariablesStep(cs, i, env);
      ghost var before, rest := errs, VariablesProblems(cs[i + 1..], env);
      var here := CheckVariables(cs[i], scope);
      errs := errs + here;
      assert before + (here + rest) == errs + rest;
    }
    VariablesEnd(cs, env);
    assert errs + [] == errs;
  }

  lemma {:induction false} VariablesStep(cs: seq<Clause>, i: nat, env: Env)
    requires i < |cs|
    ensures VariablesProblems(cs[i..], env) == VariableProblems(cs[i], env) + VariablesProblems(cs[i + 1..], env)
  {
    hide VariableProblems;
    assert cs[i..][1..] == cs[i + 1..];
  }

  lemma {:induction false} VariablesEnd(cs: seq<Clause>, env: Env)
    ensures VariablesProblems(cs[|cs|..], env) == []
  {
  }

  /** All problems of a scope, in the order the checks run. */
  method ValidateScope(c: Compiler, cs: seq<Clause>, group: bool, scope: Scope) returns (errs: seq<Problem>)
    ensures errs == ScopeProblems(c, cs, group, Flatten(scope))
    decreases ClausesSize(cs), 2
  {
    hide Flatten, ConditionsProblems, CtesProblems, VariablesProblems, EmbeddedProblems, Components, One;
    errs := [];
    if !group && One(cs, From, c.Engine()).None? { errs := errs + [NoFromTarget]; }
    var wheres := CheckConditions(c, Components(cs, Where, c.Engine()));
    errs := errs + wheres;
    var havings := CheckConditions(c, Components(cs, Having, c.Engine()));
    errs := errs + havings;
    var ctes := CheckCtes(Components(cs, Cte, c.Engine()));
    errs := errs + ctes;
    var variables := CheckAllVariables(cs, scope);
    errs := errs + variables;
    var embedded := ValidateEmbedded(c, cs, scope);
    errs := errs + embedded;
  }

  method ValidateEmbedded(c: Compiler, cs: seq<Clause>, scope: Scope) returns (errs: seq<Problem>)
    ensures errs == EmbeddedProblems(c, cs, Flatten(scope))
    decreases ClausesSize(cs), 1
  {
    hide Flatten, ClauseProblems;
    ghost var env := Flatten(scope);
    errs := [];
    assert cs[0..] == cs;
    for i := 0 to |cs|
      invariant errs + EmbeddedProblems(c, cs[i..], env) == EmbeddedProblems(c, cs, env)
    {
      assert cs[i..][1..] == cs[i + 1..];
      SizeOfMember(cs, i);
      ghost var before, rest := errs, EmbeddedProblems(c, cs[i + 1..], env);
      var here := ValidateClause(c, cs[i], scope);
      errs := errs + here;
      assert before + (here + rest) == errs + rest;
    }
    assert cs[|cs|..] == [] && errs + [] == errs;
  }

  /** Joins and groups reuse the level, subqueries push one, CTE bodies start anew. */
  method ValidateClause(c: Compiler, cl: Clause, scope: Scope) returns (errs: seq<Problem>)
    ensures errs == ClauseProblems(c, cl, Flatten(scope))
    decreases ClauseSize(cl), 0
  {
    hide ScopeProblems;
    errs := [];
    var join := JoinOf(cl);
    if join.Some? {
      var inside := ValidateScope(c, join.value, true, scope);
      errs := errs + inside;
    }
    var sub := SubQueryOf(cl);
    if sub.Some? {
      if cl.body.CombineQuery? && sub.value.verb != MethodSelect { errs := errs + [CombineNotSelect]; }
      var inner := Level(sub.value.variables, if cl.body.QueryCte? then Nil else scope);
      SubScope(cl, scope, sub.value);
      var inside := ValidateScope(c, sub.value.clauses, false, inner);
      errs := errs + inside;
    }
    var nested := GroupOf(cl);
    if nested.Some? {
      var inside := ValidateScope(c, nested.value.clauses, true, scope);
      errs := errs + inside;
    }
  }

  lemma {:induction false} SubScope(cl: Clause, scope: Scope, sub: Query)
    ensures Flatten(Level(sub.variables, if cl.body.QueryCte? then Nil else scope)) == SubEnv(cl, Flatten(scope), sub)
  {
    var none: Env := map[];
    assert none + sub.variables == sub.variables;
  }

  // ----- write verbs -----------------------------------------------------------------------

  method CheckRows(inserts: seq<Clause>) returns (errs: seq<Problem>)
    ensures errs == RowsProblems(inserts)
  {
    errs := [];
    assert inserts[0..] == inserts;
    for i := 0 to |inserts|
      invariant errs + RowsProblems(inserts[i..]) == RowsProblems(inserts)
    {
      assert inserts[i..][1..] == inserts[i + 1..];
      ghost var before, rest := errs, RowsProblems(inserts[i + 1..]);
      var here: seq<Problem> := [];
      if inserts[i].body.InsertRow? { here := ValuesProblems(inserts[i].body.columns, inserts[i].body.values); }
      errs := errs + here;
      assert before + (here + rest) == errs + rest;
    }
    assert inserts[|inserts|..] == [] && errs + [] == errs;
  }

  method CheckConflicts(conflicts: seq<Clause>) returns (errs: seq<Problem>)
    ensures errs == EmptyConflicts(conflicts)
  {
    errs := [];
    assert conflicts[0..] == conflicts;
    for i := 0 to |conflicts|
      invariant errs + EmptyConflicts(conflicts[i..]) == EmptyConflicts(conflicts)
    {
      assert conflicts[i..][1..] == conflicts[i + 1..];
      ghost var before, rest := errs, EmptyConflicts(conflicts[i + 1..]);
      var here: seq<Problem> := [];
      if conflicts[i].body.OnConflict? && conflicts[i].body.columns == [] { here := [InvalidWriteValues(0, 0)]; }
      errs := errs + here;
      assert before + (here + rest) == errs + rest;
    }
    assert conflicts[|conflicts|..] == [] && errs + [] == errs;
  }

  /** Whether row values and an insert from a query meet in one list. */
  method MixesForms(inserts: seq<Clause>) returns (mixed: bool)
    ensures mixed <==> Mixed(inserts)
  {
    var rows, query := false, false;
    for i := 0 to |inserts|
      invariant rows <==> exists j :: 0 <= j < i && inserts[j].body.InsertRow?
      invariant query <==> exists j :: 0 <= j < i && inserts[j].body.InsertQuery?
    {
      if inserts[i].body.InsertRow? { rows := true; }
      else if inserts[i].body.InsertQuery? { query := true; }
    }
    mixed := rows && query;
    assert rows <==> exists cl <- inserts :: cl.body.InsertRow?;
    assert query <==> exists cl <- inserts :: cl.body.InsertQuery?;
  }

  method ValidateWrite(c: Compiler, verb: Method, cs: seq<Clause>) returns (errs: seq<Problem>)
    ensures errs == WriteProblems(c, verb, cs)
  {
    hide Components, One, InsertProblems, UpdateProblems;
    errs := [];
    var conflicts := Components(cs, Conflict, c.Engine());
    if conflicts != [] && verb != MethodInsert { errs := errs + [ConflictWithoutInsert]; }
    if verb == MethodSelect { return; }
    ghost var first := errs;
    if Components(cs, Combine, c.Engine()) != [] { errs := errs + [CombineNotSelect]; }
    ghost var second := errs;
    var from := One(cs, From, c.Engine());
    if from.Some? && !from.value.body.FromTable? && !from.value.body.FromRaw? { errs := errs + [InvalidWriteTarget]; }
    ghost var third := errs;
    assert second == first + if Components(cs, Combine, c.Engine()) != [] then [CombineNotSelect] else [];
    assert third == second + TargetProblems(from);
    if verb == MethodInsert {
      var more := ValidateInsert(c, cs);
      errs := errs + more;
    } else if verb == MethodUpdate {
      var more := ValidateUpdate(c, cs);
      errs := errs + more;
    }
  }

  method ValidateInsert(c: Compiler, cs: seq<Clause>) returns (errs: seq<Problem>)
    ensures errs == InsertProblems(c, cs)
  {
    hide Components, RowsProblems, EmptyConflicts, Mixed;
    var inserts := Components(cs, Insert, c.Engine());
    var conflicts := Components(cs, Conflict, c.Engine());
    if inserts == [] {
      return [if Components(cs, Insert, "") != [] then NoVisibleWriteClause else NoInsertRows];
    }
    var mixed := MixesForms(inserts);
    if mixed { return [MixedInsertForm]; }
    errs := CheckRows(inserts);
    if conflicts != [] && !c.SupportsConflict() { errs := errs + [ConflictNotSupported]; }
    var empties := CheckConflicts(conflicts);
    errs := errs + empties;
  }

  method ValidateUpdate(c: Compiler, cs: seq<Clause>) returns (errs: seq<Problem>)
    ensures errs == UpdateProblems(c, cs)
  {
    var cl := One(cs, Update, c.Engine());
    if cl.Some? && cl.value.body.UpdateSet? {
      return ValuesProblems(cl.value.body.columns, cl.value.body.values);
    }
    if cl.Some? && cl.value.body.Increment? { return []; }
    return if Components(cs, Update, "") != [] then [NoVisibleWriteClause] else [];
  }
}
