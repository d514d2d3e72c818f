/** Whole statements: the aggregate rewrite, the write verbs, the WITH prefix. */
module Statements {
  import opened Ast
  import opened Dialects
  import opened Emit
  import C = Ctes
  import S = Strings

  // ----- the aggregate rewrite ----------------------------------------------------------

  function ColumnBodies(columns: seq<string>): (bodies: seq<Body>)
    ensures |bodies| == |columns|
    ensures forall i :: 0 <= i < |bodies| ==> bodies[i] == Column(Select, columns[i])
  {
    seq(|columns|, i requires 0 <= i < |columns| => Column(Select, columns[i]))
  }

  function GuardBodies(columns: seq<string>): (bodies: seq<Body>)
    ensures |bodies| == |columns|
    ensures forall i :: 0 <= i < |bodies| ==> bodies[i] == Condition(Where, false, true, IsNull(columns[i]))
  {
    seq(|columns|, i requires 0 <= i < |columns| => Condition(Where, false, true, IsNull(columns[i])))
  }

  /** The query counted by a rewritten aggregate. */
  function InnerQuery(q: Query, kind: string, columns: seq<string>): Query {
    var bare := Drop(q, {Limit, Order, Group});
    (if q.distinct then Append(Drop(bare, {Aggregate, Select}), ColumnBodies(columns))
     else Append(bare, GuardBodies(columns))).(alias := kind + "Query")
  }

  /** A single-column, non-distinct aggregate compiles as it is, without its
      pagination, ordering and grouping; every other one counts a subquery. */
  function TransformAggregate(q: Query, engine: string): Query {
    var cl := One(q.clauses, Aggregate, engine);
    if cl.Some? && cl.value.body.Aggregated? then
      var Aggregated(kind, columns) := cl.value.body;
      if |columns| == 1 && !q.distinct then Drop(q, {Limit, Order, Group})
      else EmptyQuery.(clauses := [Clause("", Aggregated(kind, ["*"])),
                                   Clause("", FromQuery(InnerQuery(q, kind, columns)))])
    else q
  }

  // ----- the write verbs ------------------------------------------------------------------

  /** The target table of a write verb. */
  function WriteTable(c: Compiler, cs: seq<Clause>): Out {
    var cl := One(cs, From, c.Engine());
    if cl.Some? && cl.value.body.FromTable? then Text([Ident(cl.value.body.table)])
    else if cl.Some? && cl.value.body.FromRaw? then RawOut(c, cl.value.body.raw)
    else Text([Fault(NoTable)])
  }

  function InsertColumns(columns: seq<string>): seq<Token> {
    if columns == [] then [] else [Sym("(")] + ColumnNames(columns) + [Sym(")")]
  }

  function InsertStart(c: Compiler, cs: seq<Clause>, multi: bool): Token {
    if c.SupportsConflict() && One(cs, Conflict, c.Engine()).Some? then Sym("INSERT IGNORE INTO")
    else if multi && c.dialect.Oracle? then Sym("INSERT ALL INTO")
    else Sym("INSERT INTO")
  }

  function Assignments(columns: seq<string>): seq<Token> {
    if columns == [] then []
    else [Ident(columns[0]), Sym("= VALUES("), Ident(columns[0]), Sym(")")] + Assignments(columns[1..])
  }

  /** The upsert tail; it binds nothing. */
  function ConflictTail(c: Compiler, cs: seq<Clause>): seq<Token> {
    var cl := One(cs, Conflict, c.Engine());
    if cl.Some? && cl.value.body.OnConflict? && c.SupportsConflict() then
      [Sym("ON DUPLICATE KEY UPDATE")] + Assignments(cl.value.body.columns)
    else []
  }

  function RowValues(env: Env, values: seq<Value>): Out {
    Cat(Word("("), Cat(Parameterize(env, values), Word(")")))
  }

  /** The rows after the first: further value groups, or Oracle's repetition of
      the target table, whose bindings are not repeated. */
  function RemainingRows(c: Compiler, env: Env, table: seq<Token>, inserts: seq<Clause>): Out {
    if inserts == [] then (if c.dialect.Oracle? then Word("SELECT 1 FROM DUAL") else Nothing)
    else
      Cat(match inserts[0].body
          case InsertRow(columns, values, _) =>
            if c.dialect.Oracle? then
              Cat(Text([Sym("INTO")] + table + InsertColumns(columns) + [Sym("VALUES")]), RowValues(env, values))
            else Cat(Word(","), RowValues(env, values))
          case _ => Text([Fault(NoInsert)]),
          RemainingRows(c, env, table, inserts[1..]))
  }

  function LastIdTail(c: Compiler, returnId: bool): seq<Token> {
    if returnId && c.LastId() != "" then [Sym(";"), Sym(c.LastId())] else []
  }

  function EmitInsert(c: Compiler, env: Env, cs: seq<Clause>): Out {
    var table := WriteTable(c, cs);
    var tail := Text(ConflictTail(c, cs));
    var inserts := Components(cs, Insert, c.Engine());
    if inserts == [] then Cat(table, Text([Fault(NoInsert)]))
    else
      var multi := |inserts| > 1;
      match inserts[0].body
      case InsertQuery(columns, q) =>
        Cat(Text([InsertStart(c, cs, false)]),
            Cat(table, Cat(Text(InsertColumns(columns)), Cat(EmitSelect(c, env, q), tail))))
      case InsertRow(columns, values, returnId) =>
        Cat(Text([InsertStart(c, cs, multi)]),
            Cat(table, Cat(Text(InsertColumns(columns) + [Sym("VALUES")]), Cat(RowValues(env, values),
                if multi then Cat(RemainingRows(c, env, table.sql, inserts[1..]), tail)
                else Cat(tail, Text(LastIdTail(c, returnId)))))))
      case _ => Cat(table, Text([Fault(NoInsert)]))
  }

  /** An insert only depends on its target, its tail and its insert clauses. */
  lemma {:induction false} InsertSame(c: Compiler, enva: Env, a: seq<Clause>, envb: Env, b: seq<Clause>)
    requires WriteTable(c, a) == WriteTable(c, b) && ConflictTail(c, a) == ConflictTail(c, b)
    requires forall multi :: InsertStart(c, a, multi) == InsertStart(c, b, multi)
    requires var x, y := Components(a, Insert, c.Engine()), Components(b, Insert, c.Engine());
      && |x| == |y| > 0 && x[0].body.InsertRow? == y[0].body.InsertRow? && x[0].body.InsertQuery? == y[0].body.InsertQuery?
      && (x[0].body.InsertRow? ==>
            x[0].body.columns == y[0].body.columns && x[0].body.returnId == y[0].body.returnId
            && RowValues(enva, x[0].body.values) == RowValues(envb, y[0].body.values))
      && (x[0].body.InsertQuery? ==>
            x[0].body.columns == y[0].body.columns
            && EmitSelect(c, enva, x[0].body.query) == EmitSelect(c, envb, y[0].body.query))
      && RemainingRows(c, enva, WriteTable(c, b).sql, x[1..]) == RemainingRows(c, envb, WriteTable(c, b).sql, y[1..])
    ensures EmitInsert(c, enva, a) == EmitInsert(c, envb, b)
  {
    hide WriteTable, ConflictTail, InsertStart, RemainingRows, RowValues, InsertColumns, EmitSelect, Components, Cat;
  }

  function WhereSection(c: Compiler, env: Env, cs: seq<Clause>): Out {
    ConditionSection("WHERE", Chosen(c, cs, Where), EmitClauses(c, env, Chosen(c, cs, Where)))
  }

  /** "column = value" for every column; a column without a value has none. */
  function SetParts(env: Env, columns: seq<string>, values: seq<Value>): seq<Out> {
    if columns == [] then []
    else
      [if values == [] then Text([Ident(columns[0]), Sym("="), Fault(NoValue)])
       else Cat(Text([Ident(columns[0]), Sym("=")]), Parameter(env, values[0]))]
      + SetParts(env, columns[1..], if values == [] then [] else values[1..])
  }

  function IncrementOut(column: string, amount: int): Out {
    Cat(Text([Ident(column), Sym("="), Ident(column), Sym(if amount < 0 then "-" else "+")]),
        Bind(if amount < 0 then Int64(-amount) else amount))
  }

  function SetSection(env: Env, body: Body): Out
    requires body.Increment? || body.UpdateSet?
  {
    match body
    case Increment(column, amount) => IncrementOut(column, amount)
    case UpdateSet(columns, values) => Joined(SetParts(env, columns, values), ",")
  }

  function EmitUpdate(c: Compiler, env: Env, cs: seq<Clause>): Out {
    var cl := One(cs, Update, c.Engine());
    if cl.Some? && (cl.value.body.Increment? || cl.value.body.UpdateSet?) then
      Cat(Word("UPDATE"), Cat(WriteTable(c, cs), Cat(Word("SET"), Cat(SetSection(env, cl.value.body), WhereSection(c, env, cs)))))
    else Out([Fault(NoUpdate)], WriteTable(c, cs).args)
  }

  function JoinsSection(c: Compiler, env: Env, cs: seq<Clause>): Out {
    Joined(EmitClauses(c, env, Chosen(c, cs, Joins)), "")
  }

  /** The alias of the target, when it has one. */
  function TargetAlias(c: Compiler, cs: seq<Clause>): string {
    var cl := One(cs, From, c.Engine());
    if cl.Some? && cl.value.body.FromTable? then S.SplitAlias(cl.value.body.table).1 else ""
  }

  /** Without joins the target is printed once; with joins it names both what to
      delete and where from, so a target without alias is printed twice. */
  function EmitDelete(c: Compiler, env: Env, cs: seq<Clause>): Out {
    var table := WriteTable(c, cs);
    var joins := JoinsSection(c, env, cs);
    var target := if TargetAlias(c, cs) != "" then [Quoted(TargetAlias(c, cs))] else table.sql;
    Cat(if joins.sql == [] then Cat(Cat(Word("DELETE FROM"), table), joins)
        else Cat(Text([Sym("DELETE")] + target + [Sym("FROM")]), Cat(table, joins)),
        WhereSection(c, env, cs))
  }

  function EmitWrite(c: Compiler, env: Env, verb: Method, cs: seq<Clause>): Out {
    match verb
    case MethodInsert => EmitInsert(c, env, cs)
    case MethodUpdate => EmitUpdate(c, env, cs)
    case MethodDelete => EmitDelete(c, env, cs)
    case MethodSelect => Nothing
  }

  // ----- the statement ----------------------------------------------------------------------

  /** Prepends the collected CTEs, each of them a root scope. */
  function WithCtes(c: Compiler, out: Out, cs: seq<Clause>): Out {
    var ctes := C.Find(c.Engine(), {}, cs).ctes;
    if ctes == [] then out
    else Cat(Word("WITH"), Cat(Joined(EmitClauses(c, map[], ctes), ","), out))
  }

  /** The output for an accepted query. */
  function Emitted(c: Compiler, q: Query): Out {
    if q.verb == MethodSelect then
      var compiled := TransformAggregate(q, c.Engine());
      Commented(WithCtes(c, EmitQuery(c, map[], compiled), compiled.clauses), q.comment)
    else
      Commented(WithCtes(c, EmitWrite(c, q.variables, q.verb, q.clauses), q.clauses), q.comment)
  }
}
