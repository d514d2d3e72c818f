/** The second pass as the compiler runs it: methods that grow the argument sequence
    of a result object while they print, each proved against module Emit. */
module Compiling {
  import opened Ast
  import opened Dialects
  import opened Emit
  import opened Variables
  import V = Validation
  import W = Validating
  import FM = FilterMeaning
  import C = Ctes
  import S = Strings
  import St = Statements

  // ----- results ----------------------------------------------------------------------------

  /** The output under construction: text, arguments and the scope chain in force. */
  class Result {
    var sql: seq<Token>
    var args: seq<Value>
    var scope: Scope

    constructor (scope: Scope)
      ensures sql == [] && args == [] && this.scope == scope
    {
      sql, args, this.scope := [], [], scope;
    }
  }

  /** What a compile method did: it printed the fragment's text and appended the
      fragment's arguments. */
  twostate predicate Did(res: Result, sql: seq<Token>, o: Out)
    reads res
  {
    sql == o.sql && res.args == old(res.args) + o.args && res.scope == old(res.scope)
  }

  // ----- values -------------------------------------------------------------------------------

  method CompileParameter(res: Result, v: Value) returns (sql: seq<Token>)
    modifies res`args
    ensures Did(res, sql, Parameter(Flatten(res.scope), v))
  {
    if v.Literal? { return [LitText(v.text)]; }
    if v.Variable? {
      var resolved := Lookup(res.scope, v.name);
      if resolved.None? {
        res.args := res.args + [Null];
        return [Fault(Undefined(v.name)), Hole(Filled(Null))];
      }
      res.args := res.args + [resolved.value];
      return [Hole(Filled(resolved.value))];
    }
    res.args := res.args + [v];
    return [Hole(Filled(v))];
  }

  method BindNumber(res: Result, n: int) returns (sql: seq<Token>)
    modifies res`args
    ensures Did(res, sql, Bind(n))
  {
    sql := CompileParameter(res, Num(n));
  }

  /** The texts and the arguments of several fragments. */
  function Texts(parts: seq<Out>): (texts: seq<seq<Token>>)
    ensures |texts| == |parts|
  {
    if parts == [] then [] else [parts[0].sql] + Texts(parts[1..])
  }

  function JoinTexts(texts: seq<seq<Token>>, sep: string): seq<Token> {
    if texts == [] then [] else if |texts| == 1 then texts[0]
    else texts[0] + ([Sym(sep)] + JoinTexts(texts[1..], sep))
  }

  lemma {:induction false} JoinedIs(parts: seq<Out>, sep: string)
    ensures Joined(parts, sep) == Out(JoinTexts(Texts(parts), sep), FM.ArgsOf(parts))
  {
    if |parts| > 1 {
      JoinedIs(parts[1..], sep);
      assert Texts(parts)[1..] == Texts(parts[1..]);
    } else if |parts| == 1 {
      assert parts[1..] == [];
    }
  }

  /** One turn of a loop over fragments. */
  lemma {:induction false} Advance(texts: seq<seq<Token>>, args: seq<Value>, part: Out, rest: seq<Out>)
    ensures texts + Texts([part] + rest) == (texts + [part.sql]) + Texts(rest)
    ensures args + FM.ArgsOf([part] + rest) == (args + part.args) + FM.ArgsOf(rest)
  {
    assert ([part] + rest)[1..] == rest;
  }

  lemma {:induction false} Finished(texts: seq<seq<Token>>, args: seq<Value>)
    ensures texts + Texts([]) == texts && args + FM.ArgsOf([]) == args
  {
  }

  method CompileValues(res: Result, values: seq<Value>) returns (sql: seq<Token>)
    modifies res`args
    ensures Did(res, sql, Parameterize(Flatten(res.scope), values))
  {
    hide Parameter, FM.ArgsOf, Texts, Flatten;
    ghost var env := Flatten(res.scope);
    ghost var all := ParameterParts(env, values);
    var texts: seq<seq<Token>> := [];
    assert values[0..] == values;
    assert [] + Texts(all) == Texts(all);
    for i := 0 to |values|
      invariant res.scope == old(res.scope)
      invariant texts + Texts(ParameterParts(env, values[i..])) == Texts(all)
      invariant res.args + FM.ArgsOf(ParameterParts(env, values[i..])) == old(res.args) + FM.ArgsOf(all)
    {
      ghost var rest := ParameterParts(env, values[i + 1..]);
      assert ParameterParts(env, values[i..]) == [Parameter(env, values[i])] + rest;
      Advance(texts, res.args, Parameter(env, values[i]), rest);
      var part := CompileParameter(res, values[i]);
      texts := texts + [part];
    }
    assert ParameterParts(env, values[|values|..]) == [];
    Finished(texts, res.args);
    JoinedIs(all, ",");
    sql := JoinTexts(texts, ",");
  }

  method CompileRaw(c: Compiler, res: Result, raw: Raw) returns (sql: seq<Token>)
    modifies res`args
    ensures Did(res, sql, RawOut(c, raw))
  {
    res.args := res.args + raw.bindings;
    return Enclosed(ExpressionTokens(c, raw));
  }

  /** Everything but the three CTE forms. */
  predicate Inline(cl: Clause) { !cl.body.QueryCte? && !cl.body.RawCte? && !cl.body.TableCte? }

  // ----- clause lists ----------------------------------------------------------------------------

  lemma {:induction false} EmitNext(c: Compiler, env: Env, cs: seq<Clause>, i: nat)
    requires i < |cs|
    ensures EmitClauses(c, env, cs[i..]) == [EmitClause(c, env, cs[i])] + EmitClauses(c, env, cs[i + 1..])
    ensures ClauseSize(cs[i]) <= ClausesSize(cs)
  {
    assert cs[i..][1..] == cs[i + 1..];
    SizeOfMember(cs, i);
    hide EmitClause;
  }

  lemma {:induction false} EmitNone(c: Compiler, env: Env)
    ensures EmitClauses(c, env, []) == []
  {
  }

  /** The clauses of a list, one after the other. */
  method CompileParts(c: Compiler, res: Result, cs: seq<Clause>) returns (texts: seq<seq<Token>>)
    requires forall cl <- cs :: Inline(cl)
    modifies res`args
    ensures res.scope == old(res.scope)
    ensures texts == Texts(EmitClauses(c, Flatten(res.scope), cs))
    ensures res.args == old(res.args) + FM.ArgsOf(EmitClauses(c, Flatten(res.scope), cs))
    decreases ClausesSize(cs), 4
  {
    hide EmitClause, EmitClauses, FM.ArgsOf, Texts, Flatten;
    ghost var env := Flatten(res.scope);
    ghost var all := EmitClauses(c, env, cs);
    texts := [];
    assert cs[0..] == cs;
    assert [] + Texts(all) == Texts(all);
    for i := 0 to |cs|
      invariant res.scope == old(res.scope)
      invariant texts + Texts(EmitClauses(c, env, cs[i..])) == Texts(all)
      invariant res.args + FM.ArgsOf(EmitClauses(c, env, cs[i..])) == old(res.args) + FM.ArgsOf(all)
    {
      EmitNext(c, env, cs, i);
      Advance(texts, res.args, EmitClause(c, env, cs[i]), EmitClauses(c, env, cs[i + 1..]));
      var part := CompileClause(c, res, cs[i]);
      texts := texts + [part];
    }
    assert cs[|cs|..] == [];
    EmitNone(c, env);
    Finished(texts, res.args);
  }

  /** One turn of the condition loop. */
  lemma {:induction false} ConnectTurn(cs: seq<Clause>, i: nat, part: Out, rest: seq<Out>, sql: seq<Token>, args: seq<Value>)
    requires i < |cs| && |rest| == |cs| - i - 1
    ensures var next := if part.sql == [] then sql else sql + (if sql == [] then [] else [Connective(cs[i])]) + part.sql;
      && sql + Connect(cs[i..], [part] + rest, sql != []).sql == next + Connect(cs[i + 1..], rest, next != []).sql
      && args + Connect(cs[i..], [part] + rest, sql != []).args == (args + part.args) + Connect(cs[i + 1..], rest, next != []).args
  {
    assert cs[i..][1..] == cs[i + 1..] && ([part] + rest)[1..] == rest;
    if part.sql == [] { assert [] + Connect(cs[i + 1..], rest, sql != []).sql == Connect(cs[i + 1..], rest, sql != []).sql; }
  }

  method CompileConditions(c: Compiler, res: Result, cs: seq<Clause>) returns (sql: seq<Token>)
    requires forall cl <- cs :: Inline(cl)
    modifies res`args
    ensures Did(res, sql, Connect(cs, EmitClauses(c, Flatten(res.scope), cs), false))
    decreases ClausesSize(cs), 4
  {
    hide EmitClause, EmitClauses, Connect, Flatten;
    ghost var env := Flatten(res.scope);
    ghost var all := Connect(cs, EmitClauses(c, env, cs), false);
    sql := [];
    assert cs[0..] == cs;
    for i := 0 to |cs|
      invariant res.scope == old(res.scope)
      invariant sql + Connect(cs[i..], EmitClauses(c, env, cs[i..]), sql != []).sql == all.sql
      invariant res.args + Connect(cs[i..], EmitClauses(c, env, cs[i..]), sql != []).args == old(res.args) + all.args
    {
      EmitNext(c, env, cs, i);
      ConnectTurn(cs, i, EmitClause(c, env, cs[i]), EmitClauses(c, env, cs[i + 1..]), sql, res.args);
      var part := CompileClause(c, res, cs[i]);
      if part != [] {
        if sql != [] { sql := sql + [Connective(cs[i])]; }
        sql := sql + part;
      }
    }
    assert cs[|cs|..] == [];
    ConnectEnds(cs[|cs|..], EmitClauses(c, env, cs[|cs|..]), sql, res.args);
  }

  lemma {:induction false} ConnectEnds(cs: seq<Clause>, parts: seq<Out>, sql: seq<Token>, args: seq<Value>)
    requires cs == [] && |parts| == 0
    ensures sql + Connect(cs, parts, sql != []).sql == sql && args + Connect(cs, parts, sql != []).args == args
  {
  }

  /** The form of a clause: column, table, join, condition, combination or CTE. */
  method CompileClause(c: Compiler, res: Result, cl: Clause) returns (sql: seq<Token>)
    requires Inline(cl)
    modifies res`args
    ensures Did(res, sql, EmitClause(c, Flatten(res.scope), cl))
    decreases ClauseSize(cl), 3
  {
    hide EmitSelect, EmitQuery, Flatten, RawOut;
    if cl.body.Condition? {
      sql := CompileCondition(c, res, cl.body.not, cl.body.shape);
    } else if SubQueryOf(cl).Some? && !cl.body.InsertQuery? {
      sql := CompileEmbedding(c, res, cl);
    } else if cl.body.AggregateColumn? {
      sql := CompileAggregateColumn(c, res, cl);
    } else if cl.body.Join? {
      sql := CompileJoin(c, res, cl);
    } else {
      sql := CompileLeaf(c, res, cl);
    }
  }

  method CompileEmbedding(c: Compiler, res: Result, cl: Clause) returns (sql: seq<Token>)
    requires cl.body.FromQuery? || cl.body.QueryColumn? || cl.body.CombineQuery?
    modifies res`args
    ensures Did(res, sql, EmitClause(c, Flatten(res.scope), cl))
    decreases ClauseSize(cl), 1
  {
    hide EmitSelect, Flatten;
    var sub := CompileSubQuery(c, res, cl.body.query);
    if cl.body.CombineQuery? {
      sql := [Sym(S.Upper(cl.body.operation))] + (if cl.body.all then [Sym("ALL")] else []) + [Inner(sub)];
    } else {
      sql := [Sym("("), Inner(sub), Sym(")")] + AliasText(c, cl.body.query.alias);
    }
  }

  method CompileAggregateColumn(c: Compiler, res: Result, cl: Clause) returns (sql: seq<Token>)
    requires cl.body.AggregateColumn?
    modifies res`args
    ensures Did(res, sql, EmitClause(c, Flatten(res.scope), cl))
    decreases ClauseSize(cl), 1
  {
    hide EmitClauses, Connect, Flatten, Components;
    var AggregateColumn(aggregate, column, filter) := cl.body;
    var (name, alias) := S.SplitAlias(column);
    var open := Sym(S.Upper(aggregate) + "(");
    var condition: seq<Token> := [];
    if filter.Some? { condition := CompileConditions(c, res, Components(GroupOf(cl).value.clauses, Where, c.Engine())); }
    if condition == [] {
      sql := [open, Ident(name), Sym(")")] + AliasText(c, alias);
    } else if c.SupportsFilter() {
      sql := [open, Ident(name), Sym(") FILTER (WHERE")] + condition + [Sym(")")] + AliasText(c, alias);
    } else {
      sql := [open, Sym("CASE WHEN")] + condition + [Sym("THEN"), Ident(name), Sym("END)")] + AliasText(c, alias);
    }
  }

  method CompileTable(c: Compiler, res: Result, cs: seq<Clause>) returns (sql: seq<Token>)
    modifies res`args
    ensures Did(res, sql, TableSection(EmitClauses(c, Flatten(res.scope), Chosen(c, cs, From))))
    decreases ClausesSize(cs), 5
  {
    hide EmitClause, Flatten;
    var from := One(cs, From, c.Engine());
    if from.None? { return [Fault(NoTable)]; }
    SizeOfOne(from.value);
    sql := CompileClause(c, res, from.value);
    assert EmitClauses(c, Flatten(res.scope), [from.value]) == [EmitClause(c, Flatten(res.scope), from.value)];
  }

  lemma {:induction false} JoinPrints(c: Compiler, env: Env, cl: Clause, before: seq<Value>)
    requires cl.body.Join?
    ensures var Join(kind, cs) := cl.body;
      var table := TableSection(EmitClauses(c, env, Chosen(c, cs, From)));
      var on := ConditionSection("ON", Chosen(c, cs, Where), EmitClauses(c, env, Chosen(c, cs, Where)));
      && EmitClause(c, env, cl).sql == [Sym(kind)] + table.sql + on.sql
      && before + EmitClause(c, env, cl).args == (before + table.args) + on.args
  {
    hide EmitClauses, Chosen, ConditionSection, TableSection;
    var Join(kind, cs) := cl.body;
    var table := TableSection(EmitClauses(c, env, Chosen(c, cs, From)));
    var on := ConditionSection("ON", Chosen(c, cs, Where), EmitClauses(c, env, Chosen(c, cs, Where)));
    assert EmitClause(c, env, cl) == Cat(Cat(Word(kind), table), on);
    assert [] + table.args == table.args;
    assert before + (table.args + on.args) == (before + table.args) + on.args;
  }

  method CompileJoin(c: Compiler, res: Result, cl: Clause) returns (sql: seq<Token>)
    requires cl.body.Join?
    modifies res`args
    ensures Did(res, sql, EmitClause(c, Flatten(res.scope), cl))
    decreases ClauseSize(cl), 1
  {
    JoinPrints(c, Flatten(res.scope), cl, res.args);
    hide EmitClauses, EmitClause, ConditionSection, Flatten, TableSection, Chosen;
    var Join(kind, cs) := cl.body;
    var target := CompileTable(c, res, cs);
    var conditions := CompileConditionSection(c, res, cs, Where, "ON");
    sql := [Sym(kind)] + target + conditions;
  }

  method CompileLeaf(c: Compiler, res: Result, cl: Clause) returns (sql: seq<Token>)
    requires (SubQueryOf(cl).None? || cl.body.InsertQuery?) && !cl.body.Condition? && !cl.body.AggregateColumn? && !cl.body.Join?
    requires Inline(cl)
    modifies res`args
    ensures Did(res, sql, EmitClause(c, Flatten(res.scope), cl))
  {
    hide RawOut, Flatten;
    match cl.body
    case FromTable(table) => sql := [Ident(table)];
    case Column(_, name) => sql := [Ident(name)];
    case FromRaw(raw) => sql := CompileRaw(c, res, raw);
    case RawColumn(_, raw) => sql := CompileRaw(c, res, raw);
    case CombineRaw(raw) => sql := CompileRaw(c, res, raw);
    case OrderRaw(raw) => sql := CompileRaw(c, res, raw);
    case OrderColumn(column, ascending) => sql := [Ident(column)] + if ascending then [] else [Sym("DESC")];
    case OrderRandom => sql := [Sym(c.RandomFunction())];
    case _ => sql := [];
  }

  /** Compiles an embedded SELECT on the chain in force and merges its arguments. */
  method CompileSubQuery(c: Compiler, res: Result, q: Query) returns (sql: seq<Token>)
    modifies res`args
    ensures Did(res, sql, EmitSelect(c, Flatten(res.scope), q))
    decreases QuerySize(q), 8
  {
    hide EmitSelect, Flatten;
    var sub := CompileSelect(c, q, res.scope);
    res.args := res.args + sub.args;
    sql := sub.sql;
  }

  method CompileSelect(c: Compiler, q: Query, parent: Scope) returns (r: Result)
    ensures fresh(r) && r.sql == EmitSelect(c, Flatten(parent), q).sql && r.args == EmitSelect(c, Flatten(parent), q).args
    decreases QuerySize(q), 7
  {
    hide EmitQuery, Flatten;
    r := CompileSections(c, q, parent);
    if q.comment != "" { r.sql := [Remark(q.comment)] + r.sql; }
  }

  // ----- conditions ----------------------------------------------------------------------------------

  function Wrap(not: bool, sql: seq<Token>): seq<Token> { if not then [KNot, LParen] + sql + [RParen] else sql }

  method CompileLike(c: Compiler, res: Result, not: bool, shape: Shape) returns (sql: seq<Token>)
    requires shape.Like?
    modifies res`args
    ensures Did(res, sql, Negated(not, LikeOut(c, shape.column, shape.pattern, shape.text, shape.caseSensitive, shape.escape)))
  {
    hide Flatten, Wildcards, OperatorToken, S.Lower;
    var value := Wildcards(shape.pattern, shape.text);
    var column := [Ident(shape.column)];
    var operator := "like";
    if c.dialect.Postgres? {
      operator := if shape.caseSensitive then "like" else "ilike";
    } else if !shape.caseSensitive {
      column := [Sym("LOWER("), Ident(shape.column), Sym(")")];
      value := S.Lower(value);
    }
    var p := CompileParameter(res, Str(value));
    var suffix := if shape.escape == "" then [] else [Sym("ESCAPE '" + shape.escape + "'")];
    assert p == [Hole(Filled(Str(value)))];
    LikeParts(column, OperatorToken(c, operator), p[0], suffix);
    sql := column + [OperatorToken(c, operator)] + p + suffix;
    sql := Wrap(not, sql);
  }

  /** The pieces of a LIKE comparison, with the column bare or lowered. */
  lemma {:induction false} LikeParts(column: seq<Token>, op: Token, hole: Token, suffix: seq<Token>)
    requires 1 <= |column| <= 3
    ensures |column| == 1 ==> column + [op] + [hole] + suffix == [column[0], op, hole] + suffix
    ensures |column| == 3 ==> column + [op] + [hole] + suffix == [column[0], column[1], column[2], op, hole] + suffix
  {
    if |column| == 1 {
      assert column + [op] + [hole] == [column[0], op, hole];
    } else if |column| == 3 {
      assert column + [op] + [hole] == [column[0], column[1], column[2], op, hole];
    }
  }

  method CompileDate(c: Compiler, res: Result, not: bool, shape: Shape) returns (sql: seq<Token>)
    requires shape.DatePart?
    modifies res`args
    ensures Did(res, sql, Negated(not && !DropsNot(c, shape.part),
                                  DateOut(c, Flatten(res.scope), shape.part, shape.column, shape.operator, shape.value)))
  {
    hide Flatten, DateFrame, Parameter;
    var f := DateFrame(c, shape.part, shape.value);
    var p := CompileParameter(res, shape.value);
    sql := Maybe(f.columnBefore) + [Ident(shape.column)] + Maybe(f.columnAfter) + [OperatorToken(c, shape.operator)]
           + Maybe(f.valueBefore) + p + Maybe(f.valueAfter);
    sql := Wrap(not && !DropsNot(c, shape.part), sql);
  }

  /** A condition on an embedded query. */
  method CompileQueryCondition(c: Compiler, res: Result, not: bool, shape: Shape) returns (sql: seq<Token>)
    requires ShapeQuery(shape).Some?
    modifies res`args
    ensures Did(res, sql, ShapeOut(c, Flatten(res.scope), not, shape, EmitShape(c, Flatten(res.scope), shape)))
    decreases ShapeSize(shape), 1
  {
    hide Parameter, EmitSelect, Flatten, OperatorToken, ExistsCopy;
    if shape.InQuery? {
      var sub := CompileSubQuery(c, res, shape.query);
      sql := [Ident(shape.column), Sym(if not then "NOT IN" else "IN"), Inner(sub)];
    } else if shape.SubQuery? {
      var sub := CompileSubQuery(c, res, shape.query);
      var p := CompileParameter(res, shape.value);
      sql := [Inner(sub), OperatorToken(c, shape.operator)] + p;
    } else {
      var sub := CompileSubQuery(c, res, ExistsCopy(shape.query));
      sql := [Sym(if not then "NOT EXISTS" else "EXISTS"), Inner(sub)];
    }
  }

  method CompileCondition(c: Compiler, res: Result, not: bool, shape: Shape) returns (sql: seq<Token>)
    modifies res`args
    ensures Did(res, sql, ShapeOut(c, Flatten(res.scope), not, shape, EmitShape(c, Flatten(res.scope), shape)))
    decreases ShapeSize(shape), 2
  {
    hide Parameter, Parameterize, LikeOut, DateOut, RawOut, EmitSelect, Flatten, Connect, EmitClauses, Components, OperatorToken;
    match shape
    case Basic(column, op, value) =>
      var p := CompileParameter(res, value);
      sql := Wrap(not, [Ident(column), OperatorToken(c, op)] + p);
    case RawCondition(raw) => sql := CompileRaw(c, res, raw);
    case IsNull(column) => sql := [Ident(column), Sym(if not then "IS NOT NULL" else "IS NULL")];
    case IsBool(column, truth) => sql := [Ident(column), Sym(if not then "!=" else "="), Sym(c.BoolLiteral(truth))];
    case TwoColumns(first, op, second) =>
      sql := (if not then [KNot] else []) + [Ident(first), OperatorToken(c, op), Ident(second)];
    case Between(column, lower, higher) =>
      var a := CompileParameter(res, lower);
      var b := CompileParameter(res, higher);
      sql := [Ident(column), KBetween(not)] + (a + ([KAnd] + b));
    case In(column, values) =>
      if values == [] { return [Sym(if not then "1 = 1" else "1 = 0")]; }
      var list := CompileValues(res, values);
      sql := [Ident(column), Sym(if not then "NOT IN" else "IN"), Sym("(")] + (list + [Sym(")")]);
    case InQuery(_, _) => sql := CompileQueryCondition(c, res, not, shape);
    case SubQuery(_, _, _) => sql := CompileQueryCondition(c, res, not, shape);
    case Exists(_) => sql := CompileQueryCondition(c, res, not, shape);
    case Nested(group) =>
      assert ShapeSize(shape) == 1 + QuerySize(group) && QuerySize(group) == 2 + ClausesSize(group.clauses);
      var inner := CompileConditions(c, res, Components(group.clauses, Where, c.Engine()));
      sql := if inner == [] then [] else (if not then [KNot] else []) + [LParen] + inner + [RParen];
    case Like(_, _, _, _, _) => sql := CompileLike(c, res, not, shape);
    case DatePart(_, _, _, _) => sql := CompileDate(c, res, not, shape);
  }

  // ----- sections --------------------------------------------------------------------------------------

  method CompileConditionSection(c: Compiler, res: Result, cs: seq<Clause>, of: Component, keyword: string)
    returns (sql: seq<Token>)
    requires of == Where || of == Having
    modifies res`args
    ensures Did(res, sql, ConditionSection(keyword, Chosen(c, cs, of), EmitClauses(c, Flatten(res.scope), Chosen(c, cs, of))))
    decreases ClausesSize(cs), 6
  {
    hide EmitClauses, Connect, Flatten;
    var list := CompileConditions(c, res, Chosen(c, cs, of));
    sql := if list == [] then [] else [Sym(keyword)] + list;
  }

  /** A listed section; nothing when no clause is chosen. */
  method CompileList(c: Compiler, res: Result, cs: seq<Clause>, of: Component, keyword: string, sep: string)
    returns (sql: seq<Token>)
    requires of != Cte
    modifies res`args
    ensures Did(res, sql, Listed(keyword, EmitClauses(c, Flatten(res.scope), Chosen(c, cs, of)), sep))
    decreases ClausesSize(cs), 6
  {
    hide EmitClauses, Flatten, FM.ArgsOf, Texts, Chosen, JoinTexts, Joined;
    ghost var parts := EmitClauses(c, Flatten(res.scope), Chosen(c, cs, of));
    var texts := CompileParts(c, res, Chosen(c, cs, of));
    JoinedIs(parts, sep);
    ListedIs(keyword, parts, sep);
    sql := if texts == [] then [] else [Sym(keyword)] + JoinTexts(texts, sep);
  }

  lemma {:induction false} ListedIs(keyword: string, parts: seq<Out>, sep: string)
    ensures Listed(keyword, parts, sep) ==
      if parts == [] then Nothing else Out([Sym(keyword)] + Joined(parts, sep).sql, Joined(parts, sep).args)
    ensures parts == [] ==> FM.ArgsOf(parts) == []
    ensures Texts(parts) == [] <==> parts == []
  {
    if parts != [] { assert [] + Joined(parts, sep).args == Joined(parts, sep).args; }
  }

  method CompileJoined(c: Compiler, res: Result, cs: seq<Clause>, of: Component) returns (sql: seq<Token>)
    requires of != Cte
    modifies res`args
    ensures Did(res, sql, Joined(EmitClauses(c, Flatten(res.scope), Chosen(c, cs, of)), ""))
    decreases ClausesSize(cs), 6
  {
    hide EmitClauses, Flatten;
    var texts := CompileParts(c, res, Chosen(c, cs, of));
    JoinedIs(EmitClauses(c, Flatten(res.scope), Chosen(c, cs, of)), "");
    sql := JoinTexts(texts, "");
  }

  method CompileOrders(c: Compiler, res: Result, cs: seq<Clause>) returns (sql: seq<Token>)
    modifies res`args
    ensures Did(res, sql, OrdersOut(OrderParts(c, Components(cs, Order, c.Engine()))))
  {
    hide OrderOut, FM.ArgsOf, Texts;
    var orders := Components(cs, Order, c.Engine());
    ghost var all := OrderParts(c, orders);
    var texts: seq<seq<Token>> := [];
    assert orders[0..] == orders && [] + Texts(all) == Texts(all);
    for i := 0 to |orders|
      invariant res.scope == old(res.scope)
      invariant texts + Texts(OrderParts(c, orders[i..])) == Texts(all)
      invariant res.args + FM.ArgsOf(OrderParts(c, orders[i..])) == old(res.args) + FM.ArgsOf(all)
    {
      assert orders[i..][1..] == orders[i + 1..];
      Advance(texts, res.args, OrderOut(c, orders[i]), OrderParts(c, orders[i + 1..]));
      var part := CompileOrder(c, res, orders[i]);
      texts := texts + [part];
    }
    assert orders[|orders|..] == [];
    Finished(texts, res.args);
    JoinedIs(all, ",");
    sql := if texts == [] then [] else [Sym("ORDER BY")] + JoinTexts(texts, ",");
    OrdersEmpty(all);
  }

  lemma {:induction false} OrdersEmpty(parts: seq<Out>)
    ensures OrdersOut(parts) == if parts == [] then Nothing else Out([Sym("ORDER BY")] + Joined(parts, ",").sql, Joined(parts, ",").args)
    ensures parts == [] ==> FM.ArgsOf(parts) == []
    ensures Texts(parts) == [] <==> parts == []
  {
    if parts != [] { assert [] + Joined(parts, ",").args == Joined(parts, ",").args; }
  }

  method CompileOrder(c: Compiler, res: Result, cl: Clause) returns (sql: seq<Token>)
    modifies res`args
    ensures Did(res, sql, OrderOut(c, cl))
  {
    hide RawOut;
    match cl.body
    case OrderColumn(column, ascending) => sql := [Ident(column)] + if ascending then [] else [Sym("DESC")];
    case OrderRaw(raw) => sql := CompileRaw(c, res, raw);
    case OrderRandom => sql := [Sym(c.RandomFunction())];
    case _ => sql := [];
  }

  // ----- pagination ------------------------------------------------------------------------------------

  /** The fragment in the SELECT head: its argument goes before all others. */
  method CompileTop(c: Compiler, res: Result, limit: int, offset: int) returns (sql: seq<Token>)
    requires res.args == []
    modifies res`args
    ensures Did(res, sql, TopSection(c, limit, offset))
  {
    if !c.dialect.SqlServer? || limit <= 0 || offset > 0 { return []; }
    res.args := [Num(limit)] + res.args;
    return [Sym("TOP ("), Hole(Filled(Num(limit))), Sym(")")];
  }

  method CompileStandardLimit(res: Result, limit: int, offset: int) returns (sql: seq<Token>)
    modifies res`args
    ensures Did(res, sql, StandardLimit(limit, offset))
  {
    sql := [];
    if limit != 0 {
      var n := BindNumber(res, limit);
      sql := [Sym("LIMIT")] + n;
    }
    if offset != 0 {
      var n := BindNumber(res, offset);
      sql := sql + ([Sym("OFFSET")] + n);
    }
  }

  method CompileFetch(res: Result, ordered: bool, filler: string, limit: int, offset: int, bare: bool) returns (sql: seq<Token>)
    modifies res`args
    ensures Did(res, sql, FetchForm(ordered, filler, limit, offset, bare))
  {
    var order := if ordered then [] else [Sym(filler)];
    var skip := BindNumber(res, offset);
    sql := order + ([Sym("OFFSET")] + (skip + [Sym("ROWS")]));
    if !bare {
      var take := BindNumber(res, limit);
      sql := sql + ([Sym("FETCH NEXT")] + (take + [Sym("ROWS ONLY")]));
    }
  }

  method CompileLimitOffset(c: Compiler, res: Result, ordered: bool, limit: int, offset: int) returns (sql: seq<Token>)
    modifies res`args
    ensures Did(res, sql, LimitSection(c, ordered, limit, offset))
  {
    hide StandardLimit, FetchForm;
    match c.dialect
    case MySQL =>
      if limit == 0 && offset > 0 {
        var n := BindNumber(res, offset);
        sql := [Sym("LIMIT 18446744073709551615 OFFSET")] + n;
      } else {
        sql := CompileStandardLimit(res, limit, offset);
      }
    case SQLite =>
      if limit == 0 && offset > 0 {
        var n := BindNumber(res, offset);
        sql := [Sym("LIMIT -1 OFFSET")] + n;
      } else {
        sql := CompileStandardLimit(res, limit, offset);
      }
    case SqlServer(legacy) =>
      if legacy || offset <= 0 { return []; }
      sql := CompileFetch(res, ordered, "ORDER BY (SELECT 0)", limit, offset, limit <= 0);
    case Oracle(legacy) =>
      if legacy || (limit == 0 && offset == 0) { return []; }
      sql := CompileFetch(res, ordered, "ORDER BY (SELECT 0 FROM DUAL)", limit, offset, limit == 0);
    case _ => sql := CompileStandardLimit(res, limit, offset);
  }

  // ----- whole SELECTs ------------------------------------------------------------------------------------

  method CompileColumns(c: Compiler, res: Result, q: Query) returns (sql: seq<Token>)
    requires res.args == []
    modifies res`args
    ensures Did(res, sql, HeadSection(c, q, EmitClauses(c, Flatten(res.scope), Chosen(c, q.clauses, Select))))
    decreases ClausesSize(q.clauses), 6
  {
    hide EmitClauses, Flatten, LimitOf, OffsetOf, TopSection, AggregateHead, SelectHead, Joined, JoinTexts, Texts, FM.ArgsOf, One, Chosen;
    var top := CompileTop(c, res, LimitOf(c, q.clauses), OffsetOf(c, q.clauses));
    var cl := One(q.clauses, Aggregate, c.Engine());
    if cl.Some? && cl.value.body.Aggregated? {
      AggregateHeadIs(c, cl.value.body.kind, cl.value.body.columns, q.distinct, TopSection(c, LimitOf(c, q.clauses), OffsetOf(c, q.clauses)));
      return AggregateHead(c, cl.value.body.kind, cl.value.body.columns, q.distinct, Text(top)).sql;
    }
    ghost var parts := EmitClauses(c, Flatten(res.scope), Chosen(c, q.clauses, Select));
    var texts := CompileParts(c, res, Chosen(c, q.clauses, Select));
    SelectHeadIs(parts, q.distinct, TopSection(c, LimitOf(c, q.clauses), OffsetOf(c, q.clauses)));
    sql := [Sym("SELECT")] + (if q.distinct then [Sym("DISTINCT")] else [])
           + (top + (if texts == [] then [Sym("*")] else JoinTexts(texts, ",")));
  }

  lemma {:induction false} AggregateHeadIs(c: Compiler, kind: string, columns: seq<string>, distinct: bool, top: Out)
    ensures AggregateHead(c, kind, columns, distinct, top)
      == Out(AggregateHead(c, kind, columns, distinct, Text(top.sql)).sql, top.args)
  {
    hide AliasText, S.Upper;
    assert top.args + [] == top.args && [] + top.args == top.args;
  }

  lemma {:induction false} SelectHeadIs(parts: seq<Out>, distinct: bool, top: Out)
    ensures SelectHead(parts, distinct, top) == Out(
      [Sym("SELECT")] + (if distinct then [Sym("DISTINCT")] else [])
        + (top.sql + (if Texts(parts) == [] then [Sym("*")] else JoinTexts(Texts(parts), ","))),
      top.args + FM.ArgsOf(parts))
  {
    JoinedIs(parts, ",");
    if parts == [] { assert FM.ArgsOf(parts) == []; }
    hide Joined, JoinTexts, FM.ArgsOf;
    assert [] + (top.args + FM.ArgsOf(parts)) == top.args + FM.ArgsOf(parts);
  }

  method CompileFrom(c: Compiler, res: Result, cs: seq<Clause>) returns (sql: seq<Token>)
    modifies res`args
    ensures Did(res, sql, Cat(Word("FROM"), TableSection(EmitClauses(c, Flatten(res.scope), Chosen(c, cs, From)))))
    decreases ClausesSize(cs), 6
  {
    hide EmitClauses, Flatten, TableSection, Chosen;
    var table := CompileTable(c, res, cs);
    sql := [Sym("FROM")] + table;
  }

  /** The nine sections in order, on one result. */
  method CompileBody(c: Compiler, res: Result, q: Query) returns (sql: seq<Token>)
    requires res.args == []
    modifies res`args
    ensures Did(res, sql, Assemble(c, q, EmitParts(c, Flatten(res.scope), q.clauses)))
    decreases QuerySize(q), 5
  {
    hide EmitClauses, Flatten, TableSection, Chosen, HeadSection, ConditionSection, Listed, OrdersOut, OrderParts, Components,
      LimitSection, LimitOf, OffsetOf, Joined;
    var orders := Components(q.clauses, Order, c.Engine());
    var head := CompileColumns(c, res, q);
    var from := CompileFrom(c, res, q.clauses);
    var joins := CompileJoined(c, res, q.clauses, Joins);
    var where := CompileConditionSection(c, res, q.clauses, Where, "WHERE");
    var group := CompileList(c, res, q.clauses, Group, "GROUP BY", ",");
    var having := CompileConditionSection(c, res, q.clauses, Having, "HAVING");
    var order := CompileOrders(c, res, q.clauses);
    var page := CompileLimitOffset(c, res, orders != [], LimitOf(c, q.clauses), OffsetOf(c, q.clauses));
    var combines := CompileJoined(c, res, q.clauses, Combine);
    ghost var env := Flatten(res.scope);
    NineInOrder(old(res.args),
                HeadSection(c, q, EmitClauses(c, env, Chosen(c, q.clauses, Select))).args,
                Cat(Word("FROM"), TableSection(EmitClauses(c, env, Chosen(c, q.clauses, From)))).args,
                Joined(EmitClauses(c, env, Chosen(c, q.clauses, Joins)), "").args,
                ConditionSection("WHERE", Chosen(c, q.clauses, Where), EmitClauses(c, env, Chosen(c, q.clauses, Where))).args,
                Listed("GROUP BY", EmitClauses(c, env, Chosen(c, q.clauses, Group)), ",").args,
                ConditionSection("HAVING", Chosen(c, q.clauses, Having), EmitClauses(c, env, Chosen(c, q.clauses, Having))).args,
                OrdersOut(OrderParts(c, orders)).args,
                LimitSection(c, orders != [], LimitOf(c, q.clauses), OffsetOf(c, q.clauses)).args,
                Joined(EmitClauses(c, env, Chosen(c, q.clauses, Combine)), "").args);
    sql := head + (from + (joins + (where + (group + (having + (order + (page + combines)))))));
  }

  lemma {:induction false} NineInOrder(z: seq<Value>, a: seq<Value>, b: seq<Value>, d: seq<Value>, e: seq<Value>, f: seq<Value>,
                                       g: seq<Value>, h: seq<Value>, i: seq<Value>, j: seq<Value>)
    ensures z + a + b + d + e + f + g + h + i + j == z + (a + (b + (d + (e + (f + (g + (h + (i + j))))))))
  {
  }

  lemma {:induction false} LevelFlattens(variables: Env, parent: Scope)
    ensures Flatten(Level(variables, parent)) == Flatten(parent) + variables
  {
  }

  /** Compiles the sections and lets the dialect wrap them: Oracle's legacy form
      wraps the text, SQL Server's discards it and recompiles a clone. */
  method CompileSections(c: Compiler, q: Query, parent: Scope) returns (r: Result)
    ensures fresh(r) && r.scope == Level(q.variables, parent)
    ensures r.sql == EmitQuery(c, Flatten(parent), q).sql && r.args == EmitQuery(c, Flatten(parent), q).args
    decreases QuerySize(q), 6
  {
    hide EmitQuery, Assemble, EmitParts, LimitOf, OffsetOf, RowNumbered, Recompiled, RowNumberWrap, RownumWrap;
    LevelFlattens(q.variables, parent);
    hide Flatten;
    r := new Result(Level(q.variables, parent));
    var body := CompileBody(c, r, q);
    r.sql := body;
    if Recompiled(c, q) {
      RowNumberedSize(c, q);
      EmitRecompiled(c, Flatten(parent), q);
      var inner := CompileSections(c, RowNumbered(c, q), r.scope);
      assert Out(inner.sql, inner.args) == EmitQuery(c, Flatten(r.scope), RowNumbered(c, q));
      CompileRowNumber(inner, LimitOf(c, q.clauses), OffsetOf(c, q.clauses));
      inner.scope := r.scope;
      r := inner;
    } else {
      EmitAssembled(c, Flatten(parent), q);
      assert Out(r.sql, r.args) == Assemble(c, q, EmitParts(c, Flatten(parent) + q.variables, q.clauses));
      if c.dialect == Oracle(true) { CompileRownum(r, LimitOf(c, q.clauses), OffsetOf(c, q.clauses)); }
    }
  }

  method CompileRowNumber(r: Result, limit: int, offset: int)
    modifies r
    ensures r.scope == old(r.scope)
    ensures Out(r.sql, r.args) == RowNumberWrap(Out(old(r.sql), old(r.args)), limit, offset)
  {
    var sql := [Sym("SELECT * FROM ("), Inner(r.sql), Sym(") AS"), Ident("results_wrapper"), Sym("WHERE"), Ident("row_num")];
    var lo := BindNumber(r, Int64(offset + 1));
    if limit <= 0 {
      r.sql := sql + ([Sym(">=")] + lo);
    } else {
      var hi := BindNumber(r, Int64(limit + offset));
      r.sql := sql + ([Sym("BETWEEN")] + (lo + ([Sym("AND")] + hi)));
    }
  }

  method CompileRownum(r: Result, limit: int, offset: int)
    modifies r
    ensures r.scope == old(r.scope)
    ensures Out(r.sql, r.args) == RownumWrap(Out(old(r.sql), old(r.args)), limit, offset)
  {
    if limit == 0 && offset == 0 { return; }
    if limit == 0 {
      var n := BindNumber(r, offset);
      r.sql := [Sym("SELECT * FROM (SELECT \"results_wrapper\".*, ROWNUM \"row_num\" FROM ("), Inner(r.sql),
                Sym(") \"results_wrapper\") WHERE \"row_num\" >")] + n;
    } else if offset == 0 {
      var n := BindNumber(r, limit);
      r.sql := [Sym("SELECT * FROM ("), Inner(r.sql), Sym(") WHERE ROWNUM <=")] + n;
    } else {
      var hi := BindNumber(r, Int64(limit + offset));
      var lo := BindNumber(r, offset);
      r.sql := [Sym("SELECT * FROM (SELECT \"results_wrapper\".*, ROWNUM \"row_num\" FROM ("), Inner(r.sql),
                Sym(") \"results_wrapper\" WHERE ROWNUM <=")] + (hi + ([Sym(") WHERE \"row_num\" >")] + lo));
    }
  }

  // ----- CTEs ------------------------------------------------------------------------------------------------

  /** The placeholders of all rows are the same text; the values are recorded one by
      one. */
  method CompileRows(c: Compiler, res: Result, columns: seq<string>, rows: seq<seq<Value>>) returns (sql: seq<Token>)
    requires res.scope == Nil
    modifies res`args
    ensures Did(res, sql, TableOut(c, columns, rows))
  {
    hide FM.ArgsOf, Texts, RowCells, RowArgs;
    ghost var all := TableRows(c, columns, rows);
    var texts: seq<seq<Token>> := [];
    assert rows[0..] == rows && [] + Texts(all) == Texts(all);
    for i := 0 to |rows|
      invariant res.scope == Nil
      invariant texts + Texts(TableRows(c, columns, rows[i..])) == Texts(all)
      invariant res.args + FM.ArgsOf(TableRows(c, columns, rows[i..])) == old(res.args) + FM.ArgsOf(all)
    {
      assert rows[i..][1..] == rows[i + 1..];
      var cells := RowCells(c, columns, rows[i]);
      var text := if c.dialect.SqlServer? then [Sym("(")] + cells + [Sym(")")]
                  else [Sym("SELECT")] + cells + if c.dialect.Oracle? then [Sym("FROM DUAL")] else [];
      Advance(texts, res.args, Out(text, RowArgs(rows[i])), TableRows(c, columns, rows[i + 1..]));
      RecordRow(res, rows[i]);
      texts := texts + [text];
    }
    assert rows[|rows|..] == [];
    Finished(texts, res.args);
    if c.dialect.SqlServer? {
      JoinedIs(all, ",");
      sql := ([Sym("SELECT")] + ColumnNames(columns) + [Sym("FROM (VALUES")])
             + (JoinTexts(texts, ",") + ([Sym(") AS tbl (")] + ColumnNames(columns) + [Sym(")")]));
    } else {
      JoinedIs(all, "UNION ALL");
      sql := JoinTexts(texts, "UNION ALL");
    }
  }

  method RecordRow(res: Result, row: seq<Value>)
    requires res.scope == Nil
    modifies res`args
    ensures res.scope == Nil && res.args == old(res.args) + RowArgs(row)
  {
    assert row[0..] == row;
    for i := 0 to |row|
      invariant res.scope == Nil
      invariant res.args + RowArgs(row[i..]) == old(res.args) + RowArgs(row)
    {
      assert row[i..][1..] == row[i + 1..];
      ghost var before, rest := res.args, RowArgs(row[i + 1..]);
      var placeholder := CompileParameter(res, row[i]);
      assert before + (Parameter(map[], row[i]).args + rest) == (before + Parameter(map[], row[i]).args) + rest;
    }
    assert row[|row|..] == [];
  }

  /** A CTE is compiled with itself as the root scope. */
  method CompileCte(c: Compiler, res: Result, cl: Clause) returns (sql: seq<Token>)
    requires res.scope == Nil
    modifies res`args
    ensures Did(res, sql, EmitClause(c, map[], cl))
  {
    hide EmitSelect, RawOut, TableOut;
    if cl.body.QueryCte? {
      var sub := CompileSelect(c, cl.body.query, Nil);
      res.args := res.args + sub.args;
      sql := [Quoted(cl.body.alias), Sym("AS ("), Inner(sub.sql), Sym(")")];
    } else if cl.body.RawCte? {
      var body := CompileRaw(c, res, cl.body.raw);
      sql := [Quoted(cl.body.alias), Sym("AS ("), Inner(body), Sym(")")];
    } else if cl.body.TableCte? {
      var body := CompileRows(c, res, cl.body.columns, cl.body.rows);
      sql := [Quoted(cl.body.alias), Sym("AS ("), Inner(body), Sym(")")];
    } else {
      sql := CompileClause(c, res, cl);
    }
  }

  method CompileCtes(c: Compiler, res: Result, ctes: seq<Clause>) returns (texts: seq<seq<Token>>)
    requires res.scope == Nil && res.args == []
    modifies res`args
    ensures texts == Texts(EmitClauses(c, map[], ctes)) && res.args == FM.ArgsOf(EmitClauses(c, map[], ctes))
  {
    hide EmitClause, EmitClauses, FM.ArgsOf, Texts;
    ghost var all := EmitClauses(c, map[], ctes);
    texts := [];
    assert ctes[0..] == ctes && [] + Texts(all) == Texts(all) && [] + FM.ArgsOf(all) == FM.ArgsOf(all);
    for i := 0 to |ctes|
      invariant res.scope == Nil
      invariant texts + Texts(EmitClauses(c, map[], ctes[i..])) == Texts(all)
      invariant res.args + FM.ArgsOf(EmitClauses(c, map[], ctes[i..])) == FM.ArgsOf(all)
    {
      EmitNext(c, map[], ctes, i);
      Advance(texts, res.args, EmitClause(c, map[], ctes[i]), EmitClauses(c, map[], ctes[i + 1..]));
      var part := CompileCte(c, res, ctes[i]);
      texts := texts + [part];
    }
    assert ctes[|ctes|..] == [];
    EmitNone(c, map[]);
    Finished(texts, res.args);
  }

  /** Prepends the collected CTEs; their arguments go before the body's. */
  method WithCtesBefore(c: Compiler, res: Result, cs: seq<Clause>)
    modifies res
    ensures res.scope == old(res.scope)
    ensures Out(res.sql, res.args) == St.WithCtes(c, Out(old(res.sql), old(res.args)), cs)
  {
    hide EmitClauses, FM.ArgsOf, Texts, C.Find;
    var finder := new C.Finder(c.Engine());
    var ctes := finder.FindClauses(cs);
    if ctes == [] { return; }
    var cteRes := new Result(Nil);
    var texts := CompileCtes(c, cteRes, ctes);
    JoinedIs(EmitClauses(c, map[], ctes), ",");
    res.sql := [Sym("WITH")] + (JoinTexts(texts, ",") + res.sql);
    res.args := cteRes.args + res.args;
  }

  // ----- write verbs ------------------------------------------------------------------------------------------

  method CompileTarget(c: Compiler, res: Result, cs: seq<Clause>) returns (sql: seq<Token>)
    modifies res`args
    ensures Did(res, sql, St.WriteTable(c, cs))
  {
    hide RawOut;
    var cl := One(cs, From, c.Engine());
    if cl.Some? && cl.value.body.FromTable? { return [Ident(cl.value.body.table)]; }
    if cl.Some? && cl.value.body.FromRaw? { sql := CompileRaw(c, res, cl.value.body.raw); return; }
    return [Fault(NoTable)];
  }

  method CompileRow(res: Result, values: seq<Value>) returns (sql: seq<Token>)
    modifies res`args
    ensures Did(res, sql, St.RowValues(Flatten(res.scope), values))
  {
    hide Parameterize, Flatten;
    var list := CompileValues(res, values);
    sql := [Sym("(")] + (list + [Sym(")")]);
  }

  /** The rows after the first: the loop of the dialect's form. */
  method CompileRemaining(c: Compiler, res: Result, table: seq<Token>, inserts: seq<Clause>) returns (sql: seq<Token>)
    modifies res`args
    ensures Did(res, sql, St.RemainingRows(c, Flatten(res.scope), table, inserts))
  {
    hide St.RemainingRows, St.RowValues, Flatten, St.InsertColumns;
    ghost var env := Flatten(res.scope);
    ghost var all := St.RemainingRows(c, env, table, inserts);
    sql := [];
    assert inserts[0..] == inserts;
    assert [] + all.sql == all.sql;
    for i := 0 to |inserts|
      invariant res.scope == old(res.scope)
      invariant sql + St.RemainingRows(c, env, table, inserts[i..]).sql == all.sql
      invariant res.args + St.RemainingRows(c, env, table, inserts[i..]).args == old(res.args) + all.args
    {
      RemainingNext(c, env, table, inserts, i);
      ghost var rest := St.RemainingRows(c, env, table, inserts[i + 1..]);
      ghost var before, args := sql, res.args;
      var row := CompileRemainingRow(c, res, table, inserts[i]);
      sql := sql + row;
      Regroup(before, row, rest.sql);
      RegroupValues(args, RemainingRow(c, env, table, inserts[i]).args, rest.args);
    }
    assert inserts[|inserts|..] == [];
    RemainingEnds(c, env, table);
    if c.dialect.Oracle? { sql := sql + [Sym("SELECT 1 FROM DUAL")]; }
  }

  /** One row after the first. */
  function RemainingRow(c: Compiler, env: Env, table: seq<Token>, cl: Clause): Out {
    match cl.body
    case InsertRow(columns, values, _) =>
      if c.dialect.Oracle? then
        Cat(Text([Sym("INTO")] + table + St.InsertColumns(columns) + [Sym("VALUES")]), St.RowValues(env, values))
      else Cat(Word(","), St.RowValues(env, values))
    case _ => Text([Fault(NoInsert)])
  }

  method CompileRemainingRow(c: Compiler, res: Result, table: seq<Token>, cl: Clause) returns (sql: seq<Token>)
    modifies res`args
    ensures Did(res, sql, RemainingRow(c, Flatten(res.scope), table, cl))
  {
    hide St.RowValues, Flatten, St.InsertColumns;
    if !cl.body.InsertRow? { return [Fault(NoInsert)]; }
    var row := CompileRow(res, cl.body.values);
    sql := if c.dialect.Oracle? then [Sym("INTO")] + table + St.InsertColumns(cl.body.columns) + [Sym("VALUES")] + row
           else [Sym(",")] + row;
  }

  lemma {:induction false} RemainingNext(c: Compiler, env: Env, table: seq<Token>, inserts: seq<Clause>, i: nat)
    requires i < |inserts|
    ensures St.RemainingRows(c, env, table, inserts[i..])
         == Cat(RemainingRow(c, env, table, inserts[i]), St.RemainingRows(c, env, table, inserts[i + 1..]))
  {
    assert inserts[i..][1..] == inserts[i + 1..];
    hide St.RowValues, St.InsertColumns;
  }

  lemma {:induction false} RemainingEnds(c: Compiler, env: Env, table: seq<Token>)
    ensures St.RemainingRows(c, env, table, []) == if c.dialect.Oracle? then Word("SELECT 1 FROM DUAL") else Nothing
  {
  }

  lemma {:induction false} Regroup(a: seq<Token>, b: seq<Token>, d: seq<Token>)
    ensures a + (b + d) == (a + b) + d
  {
  }

  lemma {:induction false} RegroupValues(a: seq<Value>, b: seq<Value>, d: seq<Value>)
    ensures a + (b + d) == (a + b) + d
  {
  }

  lemma {:induction false} RowsPrint(c: Compiler, env: Env, cs: seq<Clause>, before: seq<Value>)
    requires var inserts := Components(cs, Insert, c.Engine()); inserts != [] && inserts[0].body.InsertRow?
    ensures var inserts := Components(cs, Insert, c.Engine());
      var InsertRow(columns, values, returnId) := inserts[0].body;
      var table, row, tail := St.WriteTable(c, cs), St.RowValues(env, values), St.ConflictTail(c, cs);
      var rest := St.RemainingRows(c, env, table.sql, inserts[1..]);
      var o := St.EmitInsert(c, env, cs);
      && o.sql == [St.InsertStart(c, cs, |inserts| > 1)] + (table.sql + (St.InsertColumns(columns) + [Sym("VALUES")]
           + (row.sql + if |inserts| > 1 then rest.sql + tail else tail + St.LastIdTail(c, returnId))))
      && before + o.args == (before + table.args + row.args) + if |inserts| > 1 then rest.args else []
  {
    hide St.WriteTable, St.RowValues, St.RemainingRows, St.ConflictTail, St.InsertStart, St.InsertColumns, St.LastIdTail, EmitSelect, Components;
  }

  lemma {:induction false} SelectPrints(c: Compiler, env: Env, cs: seq<Clause>, before: seq<Value>)
    requires var inserts := Components(cs, Insert, c.Engine()); inserts != [] && inserts[0].body.InsertQuery?
    ensures var InsertQuery(columns, q) := Components(cs, Insert, c.Engine())[0].body;
      var table, source := St.WriteTable(c, cs), EmitSelect(c, env, q);
      var o := St.EmitInsert(c, env, cs);
      && o.sql == [St.InsertStart(c, cs, false)] + (table.sql + (St.InsertColumns(columns) + (source.sql + St.ConflictTail(c, cs))))
      && before + o.args == before + table.args + source.args
  {
    hide St.WriteTable, St.ConflictTail, St.InsertStart, St.InsertColumns, EmitSelect, Components;
  }

  method CompileInsert(c: Compiler, res: Result, cs: seq<Clause>) returns (sql: seq<Token>)
    modifies res`args
    ensures Did(res, sql, St.EmitInsert(c, Flatten(res.scope), cs))
  {
    hide St.WriteTable, St.RowValues, St.RemainingRows, St.ConflictTail, St.InsertStart, St.InsertColumns, St.LastIdTail, Flatten,
      EmitSelect, Components;
    ghost var env, before := Flatten(res.scope), res.args;
    var table := CompileTarget(c, res, cs);
    var tail := St.ConflictTail(c, cs);
    var inserts := Components(cs, Insert, c.Engine());
    if inserts == [] || !(inserts[0].body.InsertQuery? || inserts[0].body.InsertRow?) {
      return table + [Fault(NoInsert)];
    }
    hide St.EmitInsert;
    var first := inserts[0].body;
    if first.InsertQuery? {
      SelectPrints(c, env, cs, before);
      var source := CompileSubQuery(c, res, first.query);
      return [St.InsertStart(c, cs, false)] + (table + (St.InsertColumns(first.columns) + (source + tail)));
    }
    RowsPrint(c, env, cs, before);
    var multi := |inserts| > 1;
    var row := CompileRow(res, first.values);
    var head := St.InsertColumns(first.columns) + [Sym("VALUES")];
    if multi {
      var rest := CompileRemaining(c, res, table, inserts[1..]);
      sql := [St.InsertStart(c, cs, true)] + (table + (head + (row + (rest + tail))));
    } else {
      sql := [St.InsertStart(c, cs, false)] + (table + (head + (row + (tail + St.LastIdTail(c, first.returnId)))));
    }
  }

  method CompileSet(res: Result, columns: seq<string>, values: seq<Value>) returns (sql: seq<Token>)
    modifies res`args
    ensures Did(res, sql, Joined(St.SetParts(Flatten(res.scope), columns, values), ","))
  {
    hide Parameter, FM.ArgsOf, Texts, Flatten;
    ghost var env := Flatten(res.scope);
    ghost var all := St.SetParts(env, columns, values);
    var texts: seq<seq<Token>> := [];
    assert columns[0..] == columns && values[0..] == values && [] + Texts(all) == Texts(all);
    for i := 0 to |columns|
      invariant res.scope == old(res.scope)
      invariant texts + Texts(St.SetParts(env, columns[i..], Rest(values, i))) == Texts(all)
      invariant res.args + FM.ArgsOf(St.SetParts(env, columns[i..], Rest(values, i))) == old(res.args) + FM.ArgsOf(all)
    {
      ghost var rest := St.SetParts(env, columns[i + 1..], Rest(values, i + 1));
      SetNext(env, columns, values, i);
      Advance(texts, res.args, St.SetParts(env, columns[i..], Rest(values, i))[0], rest);
      var part: seq<Token>;
      if i < |values| {
        part := CompileParameter(res, values[i]);
      } else {
        part := [Fault(NoValue)];
        assert [Ident(columns[i]), Sym("=")] + part == [Ident(columns[i]), Sym("="), Fault(NoValue)];
      }
      texts := texts + [[Ident(columns[i]), Sym("=")] + part];
    }
    assert columns[|columns|..] == [];
    Finished(texts, res.args);
    JoinedIs(all, ",");
    sql := JoinTexts(texts, ",");
  }

  function Rest(values: seq<Value>, i: nat): seq<Value> { if i <= |values| then values[i..] else [] }

  lemma {:induction false} SetNext(env: Env, columns: seq<string>, values: seq<Value>, i: nat)
    requires i < |columns|
    ensures var parts := St.SetParts(env, columns[i..], Rest(values, i));
      && parts == [parts[0]] + St.SetParts(env, columns[i + 1..], Rest(values, i + 1))
      && parts[0] == if i < |values| then Cat(Text([Ident(columns[i]), Sym("=")]), Parameter(env, values[i]))
                     else Text([Ident(columns[i]), Sym("="), Fault(NoValue)])
  {
    assert columns[i..][1..] == columns[i + 1..];
    if i < |values| { assert Rest(values, i)[1..] == Rest(values, i + 1); }
  }

  method CompileUpdate(c: Compiler, res: Result, cs: seq<Clause>) returns (sql: seq<Token>)
    modifies res`args
    ensures Did(res, sql, St.EmitUpdate(c, Flatten(res.scope), cs))
  {
    hide St.WriteTable, Flatten, EmitClauses, Chosen, ConditionSection, One, St.SetParts, Joined;
    var table := CompileTarget(c, res, cs);
    var cl := One(cs, Update, c.Engine());
    var assignments: seq<Token>;
    if cl.Some? && cl.value.body.Increment? {
      var Increment(column, amount) := cl.value.body;
      var n := BindNumber(res, if amount < 0 then Int64(-amount) else amount);
      assignments := [Ident(column), Sym("="), Ident(column), Sym(if amount < 0 then "-" else "+")] + n;
    } else if cl.Some? && cl.value.body.UpdateSet? {
      assignments := CompileSet(res, cl.value.body.columns, cl.value.body.values);
    } else {
      return [Fault(NoUpdate)];
    }
    var where := CompileConditionSection(c, res, cs, Where, "WHERE");
    sql := [Sym("UPDATE")] + (table + ([Sym("SET")] + (assignments + where)));
  }

  method CompileDelete(c: Compiler, res: Result, cs: seq<Clause>) returns (sql: seq<Token>)
    modifies res`args
    ensures Did(res, sql, St.EmitDelete(c, Flatten(res.scope), cs))
  {
    hide St.WriteTable, Flatten, EmitClauses, Chosen, ConditionSection, One, Joined, St.TargetAlias;
    var table := CompileTarget(c, res, cs);
    var joins := CompileJoined(c, res, cs, Joins);
    var target := table;
    var alias := St.TargetAlias(c, cs);
    if alias != "" { target := [Quoted(alias)]; }
    if joins == [] { sql := [Sym("DELETE FROM")] + table; }
    else { sql := ([Sym("DELETE")] + target + [Sym("FROM")]) + (table + joins); }
    var where := CompileConditionSection(c, res, cs, Where, "WHERE");
    sql := sql + where;
  }

  /** The second pass of the entry point. */
  method CompileStatement(c: Compiler, q: Query) returns (r: Result)
    ensures fresh(r) && r.sql == St.Emitted(c, q).sql && r.args == St.Emitted(c, q).args
  {
    hide EmitQuery, St.EmitInsert, St.EmitUpdate, St.EmitDelete, St.WithCtes, St.TransformAggregate;
    if q.verb == MethodSelect {
      var compiled := St.TransformAggregate(q, c.Engine());
      r := CompileSections(c, compiled, Nil);
      assert Out(r.sql, r.args) == EmitQuery(c, map[], compiled);
      WithCtesBefore(c, r, compiled.clauses);
    } else {
      r := new Result(Level(q.variables, Nil));
      assert Flatten(r.scope) == q.variables;
      var sql: seq<Token>;
      if q.verb == MethodInsert { sql := CompileInsert(c, r, q.clauses); }
      else if q.verb == MethodUpdate { sql := CompileUpdate(c, r, q.clauses); }
      else { sql := CompileDelete(c, r, q.clauses); }
      r.sql := sql;
      assert [] + St.EmitWrite(c, q.variables, q.verb, q.clauses).args == St.EmitWrite(c, q.variables, q.verb, q.clauses).args;
      assert Out(r.sql, r.args) == St.EmitWrite(c, q.variables, q.verb, q.clauses);
      WithCtesBefore(c, r, q.clauses);
    }
    if q.comment != "" { r.sql := [Remark(q.comment)] + r.sql; }
  }

  datatype Outcome = Compiled(sql: seq<Token>, args: seq<Value>) | Rejected(problems: seq<V.Problem>)

  /** The entry point: validate, and compile what passes. */
  method Compile(c: Compiler, q: Query) returns (r: Outcome)
    ensures r == if V.Accepts(c, q) then Compiled(St.Emitted(c, q).sql, St.Emitted(c, q).args)
                 else Rejected(V.Problems(c, q))
  {
    var scope := W.ValidateScope(c, q.clauses, false, Level(q.variables, Nil));
    var write := W.ValidateWrite(c, q.verb, q.clauses);
    assert Flatten(Level(q.variables, Nil)) == q.variables;
    if scope + write != [] { return Rejected(scope + write); }
    hide St.Emitted;
    var result := CompileStatement(c, q);
    return Compiled(result.sql, result.args);
  }
}
