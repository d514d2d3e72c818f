/** The clause tree: what a builder accumulates and the compiler reads.  The tree
    is the abstract value of the object graph of module Builder. */
module Ast {

  datatype Option<+T> = None | Some(value: T)

  /** The SQL section a clause belongs to. */
  datatype Component =
    | From | Select | Where | Cte | Joins | Group | Having | Order | Aggregate
    | Limit | Offset | Combine | Insert | Update | Conflict

  datatype Method = MethodSelect | MethodInsert | MethodUpdate | MethodDelete

  /** A value at a parameter position; Variable and Literal are the two markers
      that the compiler dispatches on, the rest are plain arguments. */
  datatype Value =
    | Null
    | Num(n: int)
    | Str(s: string)
    | Time(t: int)
    | Opaque(id: int)
    | ListValue(items: seq<Value>)
    | Variable(name: string)
    | Literal(text: string)
  {
    predicate Plain() { !Variable? && !Literal? }
  }

  /** A piece of raw SQL: text as the caller wrote it, or text that the compiler
      itself has already printed (SQL Server's legacy pagination). */
  datatype Expression = Written(text: string) | Printed(tokens: seq<Token>)

  datatype Raw = Raw(expression: Expression, bindings: seq<Value>)

  /** A clause: its engine scope ("" is unrestricted) and its content. */
  datatype Clause = Clause(engine: string, body: Body)

  datatype Body =
    | FromTable(table: string)
    | FromRaw(raw: Raw)
    | FromQuery(query: Query)
    | Column(section: Component, name: string)
    | RawColumn(section: Component, raw: Raw)
    | QueryColumn(query: Query)
    | AggregateColumn(aggregate: string, column: string, filter: Option<Query>)
    | Join(kind: string, clauses: seq<Clause>)
    | Condition(section: Component, or: bool, not: bool, shape: Shape)
    | OrderColumn(column: string, ascending: bool)
    | OrderRaw(raw: Raw)
    | OrderRandom
    | LimitTo(limit: int)
    | OffsetBy(offset: int)
    | Aggregated(kind: string, columns: seq<string>)
    | CombineQuery(operation: string, all: bool, query: Query)
    | CombineRaw(raw: Raw)
    | QueryCte(alias: string, query: Query)
    | RawCte(alias: string, raw: Raw)
    | TableCte(alias: string, columns: seq<string>, rows: seq<seq<Value>>)
    | InsertRow(columns: seq<string>, values: seq<Value>, returnId: bool)
    | InsertQuery(columns: seq<string>, query: Query)
    | UpdateSet(columns: seq<string>, values: seq<Value>)
    | Increment(column: string, amount: int)
    | OnConflict(columns: seq<string>)

  /** The condition shapes; the connective flags are in Body.Condition. */
  datatype Shape =
    | Basic(column: string, operator: string, value: Value)
    | RawCondition(raw: Raw)
    | IsNull(column: string)
    | IsBool(column: string, truth: bool)
    | TwoColumns(first: string, operator: string, second: string)
    | Between(column: string, lower: Value, higher: Value)
    | In(column: string, values: seq<Value>)
    | InQuery(column: string, query: Query)
    | SubQuery(query: Query, operator: string, value: Value)
    | Exists(query: Query)
    | Nested(group: Query)
    | Like(column: string, pattern: string, text: string, caseSensitive: bool, escape: string)
    | DatePart(part: string, column: string, operator: string, value: Value)

  datatype Query = Query(
    clauses: seq<Clause>, engineScope: string, verb: Method, alias: string,
    distinct: bool, comment: string, variables: map<string, Value>)

  // ----- the printed SQL ------------------------------------------------------

  /** What a placeholder of the printed text stands for.  The text itself only
      shows "?"; the slot records which value the printing code meant. */
  datatype Slot = Filled(value: Value) | Unfilled

  /** A place where the printing code finds nothing to print (or would panic). */
  datatype Gap = NoTable | BadOperator(op: string) | Undefined(name: string) | NoInsert | NoUpdate | NoValue

  datatype Token =
    | Sym(text: string)          // keyword, punctuation or fixed text
    | Ident(name: string)        // a column or table name, quoted by Strings.Wrap
    | Quoted(alias: string)      // an alias, quoted by Strings.WrapValue
    | Chr(c: char)               // a character of a raw expression
    | LitText(text: string)      // an unsafe literal, inlined
    | Remark(text: string)       // a comment
    | Hole(slot: Slot)
    | KAnd | KOr | KNot | KBetween(not: bool) | LParen | RParen
    | Inner(tokens: seq<Token>)  // a raw expression or an embedded SELECT
    | Fault(gap: Gap)

  // ----- reading a clause -------------------------------------------------------

  function Tag(cl: Clause): Component {
    match cl.body
    case FromTable(_) => From
    case FromRaw(_) => From
    case FromQuery(_) => From
    case Column(section, _) => section
    case RawColumn(section, _) => section
    case QueryColumn(_) => Select
    case AggregateColumn(_, _, _) => Select
    case Join(_, _) => Joins
    case Condition(section, _, _, _) => section
    case OrderColumn(_, _) => Order
    case OrderRaw(_) => Order
    case OrderRandom => Order
    case LimitTo(_) => Limit
    case OffsetBy(_) => Offset
    case Aggregated(_, _) => Aggregate
    case CombineQuery(_, _, _) => Combine
    case CombineRaw(_) => Combine
    case QueryCte(_, _) => Cte
    case RawCte(_, _) => Cte
    case TableCte(_, _, _) => Cte
    case InsertRow(_, _, _) => Insert
    case InsertQuery(_, _) => Insert
    case UpdateSet(_, _) => Update
    case Increment(_, _) => Update
    case OnConflict(_) => Conflict
  }

  /** The standalone SELECT embedded in a clause. */
  function SubQueryOf(cl: Clause): (r: Option<Query>)
    ensures r.Some? ==> QuerySize(r.value) < ClauseSize(cl)
  {
    match cl.body
    case QueryColumn(q) => Some(q)
    case FromQuery(q) => Some(q)
    case QueryCte(_, q) => Some(q)
    case CombineQuery(_, _, q) => Some(q)
    case InsertQuery(_, q) => Some(q)
    case Condition(_, _, _, shape) => ShapeQuery(shape)
    case _ => None
  }

  function ShapeQuery(shape: Shape): (r: Option<Query>)
    ensures r.Some? ==> QuerySize(r.value) < ShapeSize(shape)
  {
    match shape
    case InQuery(_, q) => Some(q)
    case SubQuery(q, _, _) => Some(q)
    case Exists(q) => Some(q)
    case _ => None
  }

  /** The condition-group scope embedded in a clause. */
  function GroupOf(cl: Clause): (r: Option<Query>)
    ensures r.Some? ==> QuerySize(r.value) < ClauseSize(cl)
  {
    match cl.body
    case AggregateColumn(_, _, filter) => filter
    case Condition(_, _, _, shape) => if shape.Nested? then Some(shape.group) else None
    case _ => None
  }

  /** The join scope carried by a clause. */
  function JoinOf(cl: Clause): (r: Option<seq<Clause>>)
    ensures r.Some? ==> ClausesSize(r.value) < ClauseSize(cl)
  {
    match cl.body
    case Join(_, clauses) => Some(clauses)
    case _ => None
  }

  /** The visibility rule of engine scopes: the empty engine (base compiler) sees
      everything, any other one sees unscoped clauses and its own. */
  predicate Visible(cl: Clause, engine: string) {
    engine == "" || cl.engine == "" || cl.engine == engine
  }

  // ----- sizes ------------------------------------------------------------------

  /** Sizes make every descent of the compiler terminate.  An EXISTS condition
      weighs more than its subquery with a projection added, and an offset more
      than the two columns that replace it in a legacy SQL Server wrap. */
  function QuerySize(q: Query): nat
    decreases q
  {
    2 + ClausesSize(q.clauses)
  }

  function ClausesSize(cs: seq<Clause>): nat
    decreases cs
  {
    if cs == [] then 0 else ClauseSize(cs[0]) + ClausesSize(cs[1..])
  }

  function ClauseSize(cl: Clause): (n: nat)
    ensures n > 0
    decreases cl
  {
    match cl.body
    case FromQuery(q) => 1 + QuerySize(q)
    case QueryColumn(q) => 1 + QuerySize(q)
    case AggregateColumn(_, _, Some(q)) => 1 + QuerySize(q)
    case Join(_, clauses) => 1 + ClausesSize(clauses)
    case Condition(_, _, _, shape) => ShapeSize(shape)
    case OffsetBy(_) => 4
    case CombineQuery(_, _, q) => 1 + QuerySize(q)
    case QueryCte(_, q) => 1 + QuerySize(q)
    case InsertQuery(_, q) => 1 + QuerySize(q)
    case _ => 1
  }

  function ShapeSize(shape: Shape): (n: nat)
    ensures n > 0
    decreases shape
  {
    match shape
    case InQuery(_, q) => 1 + QuerySize(q)
    case SubQuery(q, _, _) => 1 + QuerySize(q)
    case Exists(q) => 3 + QuerySize(q)
    case Nested(q) => 1 + QuerySize(q)
    case _ => 1
  }

  lemma {:induction false} SizeOfConcat(a: seq<Clause>, b: seq<Clause>)
    ensures ClausesSize(a + b) == ClausesSize(a) + ClausesSize(b)
  {
    if a == [] {
      assert a + b == b;
    } else {
      assert (a + b)[1..] == a[1..] + b;
      SizeOfConcat(a[1..], b);
    }
  }

  lemma {:induction false} SizeOfMember(cs: seq<Clause>, i: nat)
    requires i < |cs|
    ensures ClauseSize(cs[i]) <= ClausesSize(cs)
  {
    if i > 0 { SizeOfMember(cs[1..], i - 1); }
  }

  // ----- selecting clauses --------------------------------------------------------

  /** The clauses of a section that an engine sees, in order. */
  function Components(cs: seq<Clause>, of: Component, engine: string): (r: seq<Clause>)
    ensures ClausesSize(r) <= ClausesSize(cs)
    ensures forall cl <- r :: cl in cs && Tag(cl) == of && Visible(cl, engine)
  {
    if cs == [] then []
    else if Tag(cs[0]) == of && Visible(cs[0], engine) then
      [cs[0]] + Components(cs[1..], of, engine)
    else Components(cs[1..], of, engine)
  }

  /** The first clause with exactly this engine scope. */
  function FirstScoped(cs: seq<Clause>, engine: string): (r: Option<Clause>)
    ensures r.Some? ==> r.value in cs && ClauseSize(r.value) <= ClausesSize(cs)
    ensures r.Some? ==> r.value.engine == engine
  {
    if cs == [] then None
    else if cs[0].engine == engine then Some(cs[0])
    else FirstScoped(cs[1..], engine)
  }

  /** The single clause of a section: one scoped to the engine is preferred, then
      an unscoped one. */
  function One(cs: seq<Clause>, of: Component, engine: string): (r: Option<Clause>)
    ensures r.Some? ==> r.value in cs && ClauseSize(r.value) <= ClausesSize(cs)
    ensures r.Some? ==> Tag(r.value) == of && Visible(r.value, engine)
  {
    var visible := Components(cs, of, engine);
    var exact := FirstScoped(visible, engine);
    if exact.Some? then exact else FirstScoped(visible, "")
  }

  /** The clauses outside the given sections. */
  function Without(cs: seq<Clause>, of: set<Component>): (r: seq<Clause>)
    ensures ClausesSize(r) <= ClausesSize(cs)
    ensures forall cl <- r :: cl in cs && Tag(cl) !in of
  {
    if cs == [] then []
    else if Tag(cs[0]) in of then Without(cs[1..], of)
    else [cs[0]] + Without(cs[1..], of)
  }

  function Drop(q: Query, of: set<Component>): Query {
    q.(clauses := Without(q.clauses, of))
  }

  /** Appends clauses stamped with the query's current engine scope. */
  function Append(q: Query, bodies: seq<Body>): Query {
    q.(clauses := q.clauses + Stamp(q.engineScope, bodies))
  }

  function Stamp(engine: string, bodies: seq<Body>): (r: seq<Clause>)
    ensures |r| == |bodies|
    ensures forall i :: 0 <= i < |r| ==> r[i] == Clause(engine, bodies[i])
  {
    seq(|bodies|, i requires 0 <= i < |bodies| => Clause(engine, bodies[i]))
  }

  lemma {:induction false} ComponentsConcat(a: seq<Clause>, b: seq<Clause>, of: Component, engine: string)
    ensures Components(a + b, of, engine) == Components(a, of, engine) + Components(b, of, engine)
  {
    hide Tag, Visible;
    if a == [] {
      assert a + b == b;
    } else {
      assert (a + b)[1..] == a[1..] + b;
      ComponentsConcat(a[1..], b, of, engine);
    }
  }

  lemma {:induction false} ComponentsWithout(cs: seq<Clause>, dropped: set<Component>, of: Component, engine: string)
    requires of !in dropped
    ensures Components(Without(cs, dropped), of, engine) == Components(cs, of, engine)
  {
    if cs != [] { ComponentsWithout(cs[1..], dropped, of, engine); }
  }

  lemma {:induction false} ComponentsDropped(cs: seq<Clause>, dropped: set<Component>, of: Component, engine: string)
    requires of in dropped
    ensures Components(Without(cs, dropped), of, engine) == []
  {
    if cs != [] { ComponentsDropped(cs[1..], dropped, of, engine); }
  }

  lemma {:induction false} NoComponents(cs: seq<Clause>, of: Component, engine: string)
    requires forall cl <- cs :: Tag(cl) != of
    ensures Components(cs, of, engine) == []
  {
    if cs != [] { NoComponents(cs[1..], of, engine); }
  }

  /** A visible clause of the section is among its components. */
  lemma {:induction false} InComponents(cs: seq<Clause>, of: Component, engine: string, cl: Clause)
    requires cl in cs && Tag(cl) == of && Visible(cl, engine)
    ensures cl in Components(cs, of, engine)
  {
    if cs[0] != cl { InComponents(cs[1..], of, engine, cl); }
  }

  lemma {:induction false} FirstScopedFinds(cs: seq<Clause>, engine: string, cl: Clause)
    requires cl in cs && cl.engine == engine
    ensures FirstScoped(cs, engine).Some?
  {
    if cs[0] != cl { FirstScopedFinds(cs[1..], engine, cl); }
  }

  /** A section with an unscoped clause always has a single visible clause. */
  lemma {:induction false} UnscopedIsFound(cs: seq<Clause>, of: Component, engine: string, cl: Clause)
    requires cl in cs && Tag(cl) == of && cl.engine == ""
    ensures One(cs, of, engine).Some?
  {
    InComponents(cs, of, engine, cl);
    FirstScopedFinds(Components(cs, of, engine), "", cl);
  }

  /** The kinds of join that the builder's verbs make. */
  const JoinKinds: set<string> := {"INNER JOIN", "LEFT JOIN", "RIGHT JOIN", "CROSS JOIN"}

  /** Raw columns carry text of the caller, not text the compiler printed. */
  predicate WrittenColumns(cs: seq<Clause>) {
    forall cl <- cs :: cl.body.RawColumn? ==> cl.body.raw.expression.Written?
  }

  predicate NamedJoins(cs: seq<Clause>) { forall cl <- cs :: cl.body.Join? ==> cl.body.kind in JoinKinds }

  const EmptyQuery := Query([], "", MethodSelect, "", false, "", map[])

  /** The subquery printed for EXISTS: its projection replaced by the constant 1. */
  function ExistsCopy(q: Query): (r: Query)
    ensures QuerySize(r) <= QuerySize(q) + 1
  {
    var one := Clause("", RawColumn(Select, Raw(Written("1"), [])));
    SizeOfConcat(Without(q.clauses, {Select}), [one]);
    assert ClausesSize([one]) == 1;
    q.(clauses := Without(q.clauses, {Select}) + [one])
  }
}
