/** The first pass of the compiler: every problem it reports for a query. */
module Validation {
  import opened Ast
  import opened Dialects
  import S = Strings
  import C = Ctes

  datatype Problem =
    | NoFromTarget
    | OperatorNotAllowed(column: string, operator: string)
    | InvalidEscape(escape: string)
    | CteMissingAlias
    | InvalidCteTable(alias: string, columns: nat, rows: nat, values: nat)
    | CombineNotSelect
    | VariableNotDefined(name: string)
    | InvalidWriteTarget
    | InvalidWriteValues(columns: nat, values: nat)
    | NoVisibleWriteClause
    | MixedInsertForm
    | NoInsertRows
    | ConflictNotSupported
    | ConflictWithoutInsert

  // ----- conditions ---------------------------------------------------------------------

  /** The operator a condition prints, with the column that locates it. */
  function ConditionOperator(cl: Clause): Option<(string, string)> {
    if !cl.body.Condition? then None
    else
      match cl.body.shape
      case Basic(column, op, _) => Some((op, column))
      case TwoColumns(first, op, _) => Some((op, first))
      case SubQuery(_, op, _) => Some((op, ""))
      case Like(column, _, _, _, _) => Some(("like", column))
      case DatePart(_, column, op, _) => Some((op, column))
      case _ => None
  }

  /** An escape is a single character other than the string delimiter. */
  predicate ValidEscape(s: string) { |s| == 1 && s != "'" }

  function ConditionProblems(c: Compiler, cl: Clause): seq<Problem> {
    (match ConditionOperator(cl)
     case Some((op, column)) => if c.Allows(op) then [] else [OperatorNotAllowed(column, op)]
     case None => [])
    + (if cl.body.Condition? && cl.body.shape.Like? && cl.body.shape.escape != ""
          && !ValidEscape(cl.body.shape.escape)
       then [InvalidEscape(cl.body.shape.escape)] else [])
  }

  function ConditionsProblems(c: Compiler, cs: seq<Clause>): seq<Problem> {
    if cs == [] then [] else ConditionProblems(c, cs[0]) + ConditionsProblems(c, cs[1..])
  }

  // ----- CTEs ----------------------------------------------------------------------------

  /** Unicode's White_Space, which strings.TrimSpace removes. */
  predicate IsSpace(ch: char) {
    var n := ch as int;
    || 0x09 <= n <= 0x0d || n == 0x20 || n == 0x85 || n == 0xa0 || n == 0x1680 || 0x2000 <= n <= 0x200a
    || n == 0x2028 || n == 0x2029 || n == 0x202f || n == 0x205f || n == 0x3000
  }

  /** Nothing is left of the text when it is trimmed. */
  predicate Blank(s: string) { forall ch <- s :: IsSpace(ch) }

  function BadRow(columns: nat, rows: seq<seq<Value>>): Option<seq<Value>> {
    if rows == [] then None else if |rows[0]| != columns then Some(rows[0]) else BadRow(columns, rows[1..])
  }

  function CteProblems(cl: Clause): seq<Problem> {
    if Blank(C.Alias(cl)) then [CteMissingAlias]
    else
      match cl.body
      case TableCte(alias, columns, rows) =>
        if columns == [] || rows == [] then [InvalidCteTable(alias, |columns|, |rows|, 0)]
        else
          (match BadRow(|columns|, rows)
           case Some(row) => [InvalidCteTable(alias, |columns|, |rows|, |row|)]
           case None => [])
      case _ => []
  }

  function CtesProblems(cs: seq<Clause>): seq<Problem> {
    if cs == [] then [] else CteProblems(cs[0]) + CtesProblems(cs[1..])
  }

  // ----- variables -----------------------------------------------------------------------

  /** The value positions of a clause that the second pass dispatches on. */
  function ValuesOf(cl: Clause): seq<Value> {
    match cl.body
    case Condition(_, _, _, shape) => ShapeValues(shape)
    case InsertRow(_, values, _) => values
    case UpdateSet(_, values) => values
    case TableCte(_, _, rows) => Flat(rows)
    case _ => []
  }

  function ShapeValues(shape: Shape): seq<Value> {
    match shape
    case Basic(_, _, v) => [v]
    case Between(_, lower, higher) => [lower, higher]
    case In(_, values) => values
    case SubQuery(_, _, v) => [v]
    case DatePart(_, _, _, v) => [v]
    case _ => []
  }

  function Flat(rows: seq<seq<Value>>): seq<Value> {
    if rows == [] then [] else rows[0] + Flat(rows[1..])
  }

  function UndefinedIn(values: seq<Value>, env: Env): seq<Problem> {
    if values == [] then []
    else
      (match values[0]
       case Variable(name) => if name in env then [] else [VariableNotDefined(name)]
       case _ => [])
      + UndefinedIn(values[1..], env)
  }

  /** Value tables resolve nothing: their values are bound on an empty chain. */
  function VariableProblems(cl: Clause, env: Env): seq<Problem> {
    UndefinedIn(ValuesOf(cl), if cl.body.TableCte? then map[] else env)
  }

  function VariablesProblems(cs: seq<Clause>, env: Env): seq<Problem> {
    if cs == [] then [] else VariableProblems(cs[0], env) + VariablesProblems(cs[1..], env)
  }

  // ----- the descent -----------------------------------------------------------------------

  /** The definitions in force inside a clause's subquery: a CTE body is a root of
      its own, every other subquery is pushed onto the chain. */
  function SubEnv(cl: Clause, env: Env, sub: Query): Env {
    if cl.body.QueryCte? then sub.variables else env + sub.variables
  }

  /** All problems of a scope.  Conditions and CTE shapes are checked for clauses
      the dialect sees, everything else for all clauses. */
  function ScopeProblems(c: Compiler, cs: seq<Clause>, group: bool, env: Env): seq<Problem>
    decreases ClausesSize(cs), 2
  {
    (if !group && One(cs, From, c.Engine()).None? then [NoFromTarget] else [])
    + ConditionsProblems(c, Components(cs, Where, c.Engine()))
    + ConditionsProblems(c, Components(cs, Having, c.Engine()))
    + CtesProblems(Components(cs, Cte, c.Engine()))
    + VariablesProblems(cs, env)
    + EmbeddedProblems(c, cs, env)
  }

  function EmbeddedProblems(c: Compiler, cs: seq<Clause>, env: Env): seq<Problem>
    decreases ClausesSize(cs), 1
  {
    if cs == [] then [] else ClauseProblems(c, cs[0], env) + EmbeddedProblems(c, cs[1..], env)
  }

  /** The problems of the join scope, subquery or group a clause carries. */
  function ClauseProblems(c: Compiler, cl: Clause, env: Env): seq<Problem>
    decreases ClauseSize(cl), 0
  {
    (match JoinOf(cl)
     case Some(join) => ScopeProblems(c, join, true, env)
     case None => [])
    + (match SubQueryOf(cl)
       case Some(sub) =>
         (if cl.body.CombineQuery? && sub.verb != MethodSelect then [CombineNotSelect] else [])
         + ScopeProblems(c, sub.clauses, false, SubEnv(cl, env, sub))
       case None => [])
    + (match GroupOf(cl)
       case Some(group) => ScopeProblems(c, group.clauses, true, env)
       case None => [])
  }

  // ----- write verbs -----------------------------------------------------------------------

  function ValuesProblems(columns: seq<string>, values: seq<Value>): seq<Problem> {
    if columns == [] || values == [] || |columns| != |values| then [InvalidWriteValues(|columns|, |values|)] else []
  }

  function RowsProblems(inserts: seq<Clause>): seq<Problem> {
    if inserts == [] then []
    else
      (match inserts[0].body
       case InsertRow(columns, values, _) => ValuesProblems(columns, values)
       case _ => [])
      + RowsProblems(inserts[1..])
  }

  predicate Mixed(inserts: seq<Clause>) {
    (exists cl <- inserts :: cl.body.InsertRow?) && (exists cl <- inserts :: cl.body.InsertQuery?)
  }

  function EmptyConflicts(conflicts: seq<Clause>): seq<Problem> {
    if conflicts == [] then []
    else
      (match conflicts[0].body
       case OnConflict(columns) => if columns == [] then [InvalidWriteValues(0, 0)] else []
       case _ => [])
      + EmptyConflicts(conflicts[1..])
  }

  function InsertProblems(c: Compiler, cs: seq<Clause>): seq<Problem> {
    var inserts := Components(cs, Insert, c.Engine());
    var conflicts := Components(cs, Conflict, c.Engine());
    if inserts == [] then [if Components(cs, Insert, "") != [] then NoVisibleWriteClause else NoInsertRows]
    else if Mixed(inserts) then [MixedInsertForm]
    else
      RowsProblems(inserts)
      + (if conflicts != [] && !c.SupportsConflict() then [ConflictNotSupported] else [])
      + EmptyConflicts(conflicts)
  }

  function UpdateProblems(c: Compiler, cs: seq<Clause>): seq<Problem> {
    var cl := One(cs, Update, c.Engine());
    if cl.Some? && cl.value.body.UpdateSet? then ValuesProblems(cl.value.body.columns, cl.value.body.values)
    else if cl.Some? && cl.value.body.Increment? then []
    else if Components(cs, Update, "") != [] then [NoVisibleWriteClause] else []
  }

  /** A write needs a table, by name or raw. */
  function TargetProblems(from: Option<Clause>): seq<Problem> {
    match from
    case Some(cl) => if cl.body.FromTable? || cl.body.FromRaw? then [] else [InvalidWriteTarget]
    case None => []
  }

  function WriteProblems(c: Compiler, verb: Method, cs: seq<Clause>): seq<Problem> {
    (if Components(cs, Conflict, c.Engine()) != [] && verb != MethodInsert then [ConflictWithoutInsert] else [])
    + (if verb == MethodSelect then []
       else
         (if Components(cs, Combine, c.Engine()) != [] then [CombineNotSelect] else [])
         + TargetProblems(One(cs, From, c.Engine()))
         + (match verb
            case MethodInsert => InsertProblems(c, cs)
            case MethodUpdate => UpdateProblems(c, cs)
            case _ => []))
  }

  function Problems(c: Compiler, q: Query): seq<Problem> {
    ScopeProblems(c, q.clauses, false, q.variables) + WriteProblems(c, q.verb, q.clauses)
  }

  predicate Accepts(c: Compiler, q: Query) { Problems(c, q) == [] }

  // ----- acceptance, clause by clause ----------------------------------------------------------

  predicate ConditionOk(c: Compiler, cl: Clause) {
    && (ConditionOperator(cl).Some? ==> c.Allows(ConditionOperator(cl).value.0))
    && (cl.body.Condition? && cl.body.shape.Like? && cl.body.shape.escape != "" ==> ValidEscape(cl.body.shape.escape))
  }

  predicate CteOk(cl: Clause) {
    && !Blank(C.Alias(cl))
    && (cl.body.TableCte? ==>
          cl.body.columns != [] && cl.body.rows != [] && forall row <- cl.body.rows :: |row| == |cl.body.columns|)
  }

  predicate ValuesOk(values: seq<Value>, env: Env) {
    forall v <- values :: v.Variable? ==> v.name in env
  }

  /** What acceptance of a scope says about each of its clauses. */
  predicate ClauseOk(c: Compiler, cl: Clause, env: Env) {
    && (Visible(cl, c.Engine()) && (Tag(cl) == Where || Tag(cl) == Having) ==> ConditionOk(c, cl))
    && (Visible(cl, c.Engine()) && Tag(cl) == Cte ==> CteOk(cl))
    && ValuesOk(ValuesOf(cl), if cl.body.TableCte? then map[] else env)
    && ClauseProblems(c, cl, env) == []
  }

  predicate ScopeOk(c: Compiler, cs: seq<Clause>, group: bool, env: Env) {
    (group || One(cs, From, c.Engine()).Some?) && forall cl <- cs :: ClauseOk(c, cl, env)
  }

  lemma {:induction false} ConditionsOk(c: Compiler, cs: seq<Clause>)
    ensures ConditionsProblems(c, cs) == [] <==> forall cl <- cs :: ConditionOk(c, cl)
  {
    if cs != [] {
      ConditionsOk(c, cs[1..]);
      assert |ConditionsProblems(c, cs)| == |ConditionProblems(c, cs[0])| + |ConditionsProblems(c, cs[1..])|;
      assert ConditionProblems(c, cs[0]) == [] <==> ConditionOk(c, cs[0]);
      assert cs == [cs[0]] + cs[1..];
    }
  }

  lemma {:induction false} RowsFit(columns: nat, rows: seq<seq<Value>>)
    ensures BadRow(columns, rows).None? <==> forall row <- rows :: |row| == columns
  {
    if rows != [] {
      RowsFit(columns, rows[1..]);
      assert rows == [rows[0]] + rows[1..];
    }
  }

  lemma {:induction false} CtesOk(cs: seq<Clause>)
    ensures CtesProblems(cs) == [] <==> forall cl <- cs :: CteOk(cl)
  {
    if cs != [] {
      CtesOk(cs[1..]);
      assert cs == [cs[0]] + cs[1..];
      if cs[0].body.TableCte? { RowsFit(|cs[0].body.columns|, cs[0].body.rows); }
      assert CteProblems(cs[0]) == [] <==> CteOk(cs[0]);
      assert |CtesProblems(cs)| == |CteProblems(cs[0])| + |CtesProblems(cs[1..])|;
    }
  }

  lemma {:induction false} AllDefined(values: seq<Value>, env: Env)
    ensures UndefinedIn(values, env) == [] <==> ValuesOk(values, env)
  {
    if values != [] {
      AllDefined(values[1..], env);
      assert values == [values[0]] + values[1..];
    }
  }

  lemma {:induction false} VariablesOk(cs: seq<Clause>, env: Env)
    ensures VariablesProblems(cs, env) == [] <==>
      forall cl <- cs :: ValuesOk(ValuesOf(cl), if cl.body.TableCte? then map[] else env)
  {
    if cs != [] {
      VariablesOk(cs[1..], env);
      AllDefined(ValuesOf(cs[0]), if cs[0].body.TableCte? then map[] else env);
      assert cs == [cs[0]] + cs[1..];
    }
  }

  lemma {:induction false} EmbeddedOk(c: Compiler, cs: seq<Clause>, env: Env)
    ensures EmbeddedProblems(c, cs, env) == [] <==> forall cl <- cs :: ClauseProblems(c, cl, env) == []
  {
    if cs != [] {
      EmbeddedOk(c, cs[1..], env);
      assert |EmbeddedProblems(c, cs, env)| == |ClauseProblems(c, cs[0], env)| + |EmbeddedProblems(c, cs[1..], env)|;
      assert cs == [cs[0]] + cs[1..];
    }
  }

  lemma {:induction false} SectionOk(c: Compiler, cs: seq<Clause>, of: Component)
    requires of == Where || of == Having
    ensures ConditionsProblems(c, Components(cs, of, c.Engine())) == [] <==>
      forall cl <- cs :: Visible(cl, c.Engine()) && Tag(cl) == of ==> ConditionOk(c, cl)
  {
    ConditionsOk(c, Components(cs, of, c.Engine()));
    forall cl | cl in cs && Visible(cl, c.Engine()) && Tag(cl) == of ensures cl in Components(cs, of, c.Engine()) {
      InComponents(cs, of, c.Engine(), cl);
    }
  }

  lemma {:induction false} CteSectionOk(c: Compiler, cs: seq<Clause>)
    ensures CtesProblems(Components(cs, Cte, c.Engine())) == [] <==>
      forall cl <- cs :: Visible(cl, c.Engine()) && Tag(cl) == Cte ==> CteOk(cl)
  {
    CtesOk(Components(cs, Cte, c.Engine()));
    forall cl | cl in cs && Visible(cl, c.Engine()) && Tag(cl) == Cte ensures cl in Components(cs, Cte, c.Engine()) {
      InComponents(cs, Cte, c.Engine(), cl);
    }
  }

  /** A scope is reported without problems exactly when it has a source table (if
      it needs one) and every clause of it is in order. */
  lemma {:induction false} ScopeAccepted(c: Compiler, cs: seq<Clause>, group: bool, env: Env)
    ensures ScopeProblems(c, cs, group, env) == [] <==> ScopeOk(c, cs, group, env)
  {
    hide ConditionOk, CteOk, ValuesOk, ClauseProblems, ConditionsProblems, CtesProblems, VariablesProblems;
    hide EmbeddedProblems, Components, One, Tag, ValuesOf, Visible;
    SectionOk(c, cs, Where);
    SectionOk(c, cs, Having);
    CteSectionOk(c, cs);
    VariablesOk(cs, env);
    EmbeddedOk(c, cs, env);
    var parts := (
      if !group && One(cs, From, c.Engine()).None? then [NoFromTarget] else [],
      ConditionsProblems(c, Components(cs, Where, c.Engine())),
      ConditionsProblems(c, Components(cs, Having, c.Engine())),
      CtesProblems(Components(cs, Cte, c.Engine())),
      VariablesProblems(cs, env),
      EmbeddedProblems(c, cs, env));
    SixEmpty(parts.0, parts.1, parts.2, parts.3, parts.4, parts.5);
    assert ScopeProblems(c, cs, group, env) == parts.0 + parts.1 + parts.2 + parts.3 + parts.4 + parts.5;
  }

  lemma {:induction false} SixEmpty(a: seq<Problem>, b: seq<Problem>, c: seq<Problem>, d: seq<Problem>, e: seq<Problem>, f: seq<Problem>)
    ensures a + b + c + d + e + f == [] <==> a == [] && b == [] && c == [] && d == [] && e == [] && f == []
  {
    assert |a + b + c + d + e + f| == |a| + |b| + |c| + |d| + |e| + |f|;
  }
}
