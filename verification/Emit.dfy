/** The specification of the compiler's second pass: what every query prints and
    binds.  Module Compiling proves the argument-growing methods against it. */
module Emit {
  import opened Ast
  import opened Dialects
  import S = Strings

  /** The clauses of a section that reach the output: a projection is ignored in
      aggregate shape, and a source table is a single clause. */
  function Chosen(c: Compiler, cs: seq<Clause>, of: Component): (r: seq<Clause>)
    ensures ClausesSize(r) <= ClausesSize(cs)
    ensures forall cl <- r :: cl in cs && Tag(cl) == of && Visible(cl, c.Engine())
  {
    if of == From then
      match One(cs, From, c.Engine()) case Some(cl) => SizeOfOne(cl); [cl] case None => []
    else if of == Select && One(cs, Aggregate, c.Engine()).Some? then []
    else Components(cs, of, c.Engine())
  }

  lemma {:induction false} SizeOfOne(cl: Clause)
    ensures ClausesSize([cl]) == ClauseSize(cl)
  {
    assert [cl][1..] == [];
  }

  // ----- condition lists ------------------------------------------------------------

  /** Joins conditions by their Or flags.  A condition that printed nothing is
      skipped and takes no connective; `started` says whether one was printed. */
  function Connect(cs: seq<Clause>, parts: seq<Out>, started: bool): Out
    requires |cs| == |parts|
  {
    if cs == [] then Nothing
    else if parts[0].sql == [] then
      Cat(parts[0], Connect(cs[1..], parts[1..], started))
    else if !started then Cat(parts[0], Connect(cs[1..], parts[1..], true))
    else Cat(Cat(Text([Connective(cs[0])]), parts[0]), Connect(cs[1..], parts[1..], true))
  }

  function Connective(cl: Clause): Token {
    if cl.body.Condition? && cl.body.or then KOr else KAnd
  }

  function ConditionSection(keyword: string, cs: seq<Clause>, parts: seq<Out>): Out
    requires |cs| == |parts|
  {
    var list := Connect(cs, parts, false);
    if list.sql == [] then list else Cat(Word(keyword), list)
  }

  /** A condition, given what its embedded query or group printed. */
  function ShapeOut(c: Compiler, env: Env, not: bool, shape: Shape, inner: Out): Out {
    match shape
    case Basic(column, op, value) =>
      Negated(not, Cat(Text([Ident(column), OperatorToken(c, op)]), Parameter(env, value)))
    case RawCondition(raw) => RawOut(c, raw)
    case IsNull(column) => Text([Ident(column), Sym(if not then "IS NOT NULL" else "IS NULL")])
    case IsBool(column, truth) =>
      Text([Ident(column), Sym(if not then "!=" else "="), Sym(c.BoolLiteral(truth))])
    case TwoColumns(first, op, second) =>
      Text((if not then [KNot] else []) + [Ident(first), OperatorToken(c, op), Ident(second)])
    case Between(column, lower, higher) =>
      Cat(Text([Ident(column), KBetween(not)]),
          Cat(Parameter(env, lower), Cat(Text([KAnd]), Parameter(env, higher))))
    case In(column, values) =>
      if values == [] then Word(if not then "1 = 1" else "1 = 0")
      else Cat(Text([Ident(column), Sym(if not then "NOT IN" else "IN"), Sym("(")]),
               Cat(Parameterize(env, values), Word(")")))
    case InQuery(column, _) =>
      Out([Ident(column), Sym(if not then "NOT IN" else "IN"), Inner(inner.sql)], inner.args)
    case SubQuery(_, op, value) =>
      Cat(Out([Inner(inner.sql), OperatorToken(c, op)], inner.args), Parameter(env, value))
    case Exists(_) => Out([Sym(if not then "NOT EXISTS" else "EXISTS"), Inner(inner.sql)], inner.args)
    case Nested(_) =>
      if inner.sql == [] then inner
      else Out((if not then [KNot] else []) + [LParen] + inner.sql + [RParen], inner.args)
    case Like(column, pattern, text, caseSensitive, escape) =>
      Negated(not, LikeOut(c, column, pattern, text, caseSensitive, escape))
    case DatePart(part, column, op, value) =>
      Negated(not && !DropsNot(c, part), DateOut(c, env, part, column, op, value))
  }

  // ----- tables and joins -------------------------------------------------------------

  function TableSection(parts: seq<Out>): Out {
    if parts == [] then Text([Fault(NoTable)]) else parts[0]
  }

  function JoinOut(kind: string, target: seq<Out>, cs: seq<Clause>, conditions: seq<Out>): Out
    requires |cs| == |conditions|
  {
    Cat(Cat(Word(kind), TableSection(target)), ConditionSection("ON", cs, conditions))
  }

  function Embedded(c: Compiler, sub: Out, alias: string): Out {
    Out([Sym("("), Inner(sub.sql), Sym(")")] + AliasText(c, alias), sub.args)
  }

  // ----- the sections of a SELECT -------------------------------------------------------

  /** What the chosen clauses of every section printed. */
  datatype Parts = Parts(
    columns: seq<Out>, table: seq<Out>, joins: seq<Out>, wheres: seq<Out>,
    groups: seq<Out>, havings: seq<Out>, combines: seq<Out>)

  predicate PartsFit(c: Compiler, cs: seq<Clause>, p: Parts) {
    |p.wheres| == |Chosen(c, cs, Where)| && |p.havings| == |Chosen(c, cs, Having)|
  }

  function Listed(keyword: string, parts: seq<Out>, sep: string): Out {
    if parts == [] then Nothing else Cat(Word(keyword), Joined(parts, sep))
  }

  function HeadSection(c: Compiler, q: Query, columns: seq<Out>): Out {
    var top := TopSection(c, LimitOf(c, q.clauses), OffsetOf(c, q.clauses));
    var cl := One(q.clauses, Aggregate, c.Engine());
    if cl.Some? && cl.value.body.Aggregated? then
      AggregateHead(c, cl.value.body.kind, cl.value.body.columns, q.distinct, top)
    else SelectHead(columns, q.distinct, top)
  }

  /** The nine sections in order. */
  function Assemble(c: Compiler, q: Query, p: Parts): Out
    requires PartsFit(c, q.clauses, p)
  {
    var orders := Components(q.clauses, Order, c.Engine());
    Cat(HeadSection(c, q, p.columns),
    Cat(Cat(Word("FROM"), TableSection(p.table)),
    Cat(Joined(p.joins, ""),
    Cat(ConditionSection("WHERE", Chosen(c, q.clauses, Where), p.wheres),
    Cat(Listed("GROUP BY", p.groups, ","),
    Cat(ConditionSection("HAVING", Chosen(c, q.clauses, Having), p.havings),
    Cat(OrdersOut(OrderParts(c, orders)),
    Cat(LimitSection(c, orders != [], LimitOf(c, q.clauses), OffsetOf(c, q.clauses)),
        Joined(p.combines, "")))))))))
  }

  /** The legacy forms of Oracle wrap the assembled SELECT; all others keep it. */
  function Wrapped(c: Compiler, q: Query, body: Out): Out {
    if c.dialect == Oracle(true) then RownumWrap(body, LimitOf(c, q.clauses), OffsetOf(c, q.clauses))
    else body
  }

  /** SQL Server's legacy form recompiles a clone when there is an offset. */
  predicate Recompiled(c: Compiler, q: Query) {
    c.dialect == SqlServer(true) && OffsetOf(c, q.clauses) > 0
  }

  // ----- the descent ----------------------------------------------------------------------

  function EmitQuery(c: Compiler, outer: Env, q: Query): Out
    decreases QuerySize(q), 2
  {
    var env := outer + q.variables;
    if Recompiled(c, q) then
      RowNumberedSize(c, q);
      RowNumberWrap(EmitQuery(c, env, RowNumbered(c, q)), LimitOf(c, q.clauses), OffsetOf(c, q.clauses))
    else
      Wrapped(c, q, Assemble(c, q, EmitParts(c, env, q.clauses)))
  }

  function EmitParts(c: Compiler, env: Env, cs: seq<Clause>): (p: Parts)
    ensures PartsFit(c, cs, p)
    decreases ClausesSize(cs) + 1, 2
  {
    Parts(
      EmitClauses(c, env, Chosen(c, cs, Select)),
      EmitClauses(c, env, Chosen(c, cs, From)),
      EmitClauses(c, env, Chosen(c, cs, Joins)),
      EmitClauses(c, env, Chosen(c, cs, Where)),
      EmitClauses(c, env, Chosen(c, cs, Group)),
      EmitClauses(c, env, Chosen(c, cs, Having)),
      EmitClauses(c, env, Chosen(c, cs, Combine)))
  }

  function EmitClauses(c: Compiler, env: Env, cs: seq<Clause>): (parts: seq<Out>)
    ensures |parts| == |cs|
    decreases ClausesSize(cs), 2
  {
    if cs == [] then [] else [EmitClause(c, env, cs[0])] + EmitClauses(c, env, cs[1..])
  }

  /** An embedded SELECT with its comment; a CTE body starts a scope of its own. */
  function EmitSelect(c: Compiler, outer: Env, q: Query): Out
    decreases QuerySize(q), 3
  {
    Commented(EmitQuery(c, outer, q), q.comment)
  }

  function EmitGroup(c: Compiler, env: Env, group: Query): Out
    decreases QuerySize(group), 2
  {
    var cs := Components(group.clauses, Where, c.Engine());
    Connect(cs, EmitClauses(c, env, cs), false)
  }

  function EmitClause(c: Compiler, env: Env, cl: Clause): Out
    decreases ClauseSize(cl), 1
  {
    match cl.body
    case FromTable(table) => Text([Ident(table)])
    case FromRaw(raw) => RawOut(c, raw)
    case FromQuery(q) => Embedded(c, EmitSelect(c, env, q), q.alias)
    case Column(_, name) => Text([Ident(name)])
    case RawColumn(_, raw) => RawOut(c, raw)
    case QueryColumn(q) => Embedded(c, EmitSelect(c, env, q), q.alias)
    case AggregateColumn(aggregate, column, filter) =>
      var condition := if filter.Some? then EmitGroup(c, env, filter.value) else Nothing;
      AggregateColumnOut(c, aggregate, column, condition)
    case Join(kind, cs) =>
      JoinOut(kind, EmitClauses(c, env, Chosen(c, cs, From)),
              Chosen(c, cs, Where), EmitClauses(c, env, Chosen(c, cs, Where)))
    case Condition(_, _, not, shape) => ShapeOut(c, env, not, shape, EmitShape(c, env, shape))
    case OrderColumn(_, _) => OrderOut(c, cl)
    case OrderRaw(_) => OrderOut(c, cl)
    case OrderRandom => OrderOut(c, cl)
    case CombineQuery(operation, all, q) =>
      CombineOut(operation, all, EmitSelect(c, env, q))
    case CombineRaw(raw) => RawOut(c, raw)
    case QueryCte(alias, q) => CteOut(alias, EmitSelect(c, map[], q))
    case RawCte(alias, raw) => CteOut(alias, RawOut(c, raw))
    case TableCte(alias, columns, rows) => CteOut(alias, TableOut(c, columns, rows))
    case _ => Nothing
  }

  /** What the query or group inside a condition prints. */
  function EmitShape(c: Compiler, env: Env, shape: Shape): Out
    decreases ShapeSize(shape), 0
  {
    match shape
    case InQuery(_, q) => EmitSelect(c, env, q)
    case SubQuery(q, _, _) => EmitSelect(c, env, q)
    case Exists(q) => EmitSelect(c, env, ExistsCopy(q))
    case Nested(group) => EmitGroup(c, env, group)
    case _ => Nothing
  }

  function CombineOut(operation: string, all: bool, sub: Out): Out {
    Out([Sym(S.Upper(operation))] + (if all then [Sym("ALL")] else []) + [Inner(sub.sql)], sub.args)
  }

  function CteOut(alias: string, body: Out): Out {
    Out([Quoted(alias), Sym("AS ("), Inner(body.sql), Sym(")")], body.args)
  }

  /** The two branches of EmitQuery. */
  lemma {:induction false} EmitRecompiled(c: Compiler, outer: Env, q: Query)
    requires Recompiled(c, q)
    ensures EmitQuery(c, outer, q) ==
      RowNumberWrap(EmitQuery(c, outer + q.variables, RowNumbered(c, q)), LimitOf(c, q.clauses), OffsetOf(c, q.clauses))
  {
    hide RowNumberWrap, RowNumbered, LimitOf, OffsetOf;
  }

  lemma {:induction false} EmitAssembled(c: Compiler, outer: Env, q: Query)
    requires !Recompiled(c, q)
    ensures EmitQuery(c, outer, q) == Wrapped(c, q, Assemble(c, q, EmitParts(c, outer + q.variables, q.clauses)))
  {
    hide Wrapped, Assemble, EmitParts, LimitOf, OffsetOf;
  }

  // ----- termination of the legacy recompilation ----------------------------------------------

  lemma {:induction false} DroppingOffset(cs: seq<Clause>, of: set<Component>, i: nat)
    requires i < |cs| && cs[i].body.OffsetBy? && Offset in of
    ensures ClausesSize(Without(cs, of)) + 4 <= ClausesSize(cs)
  {
    if i > 0 { DroppingOffset(cs[1..], of, i - 1); }
  }

  lemma {:induction false} SizeOfColumns(cs: seq<Clause>)
    requires forall cl <- cs :: cl.body.Column? || cl.body.RawColumn?
    ensures ClausesSize(cs) == |cs|
  {
    if cs != [] { SizeOfColumns(cs[1..]); }
  }

  /** The clone is smaller: its offset is gone and two columns came in. */
  lemma {:induction false} RowNumberedSize(c: Compiler, q: Query)
    requires Recompiled(c, q)
    ensures QuerySize(RowNumbered(c, q)) < QuerySize(q)
  {
    var offset := One(q.clauses, Offset, c.Engine()).value;
    var i :| 0 <= i < |q.clauses| && q.clauses[i] == offset;
    DroppingOffset(q.clauses, {Order, Limit, Offset}, i);
    var bare := Without(q.clauses, {Order, Limit, Offset});
    var added := Stamp(q.engineScope, RowNumberColumns(c, q));
    SizeOfConcat(bare, added);
    SizeOfColumns(added);
  }
}
