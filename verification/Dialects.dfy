/** The dialects and the fragments of SQL that only depend on them: the hooks of
    the compiler whose output involves no descent into the clause tree. */
module Dialects {
  import opened Ast
  import S = Strings

  datatype Dialect =
    | Base | MySQL | SQLite | Postgres
    | SqlServer(legacy: bool)   // OFFSET-FETCH, or ROW_NUMBER windows
    | Oracle(legacy: bool)      // OFFSET-FETCH, or ROWNUM wraps

  const BuiltinOperators: set<string> := {
    "=", "<", ">", "<=", ">=", "<>", "!=", "<=>",
    "like", "not like", "ilike", "not ilike", "like binary", "not like binary",
    "rlike", "not rlike", "regexp", "not regexp", "similar to", "not similar to" }

  /** A compiler: its dialect and the operators added by Whitelist. */
  datatype Compiler = Compiler(dialect: Dialect, extra: set<string>) {

    /** The dialect code against which engine scopes are filtered. */
    function Engine(): string {
      match dialect
      case Base => ""
      case MySQL => "mysql"
      case SQLite => "sqlite"
      case Postgres => "postgres"
      case SqlServer(_) => "sqlserver"
      case Oracle(_) => "oracle"
    }

    function Quotes(): (q: S.Quotes)
      ensures q.Proper()
    {
      match dialect
      case MySQL => S.Quotes('`', '`')
      case SqlServer(_) => S.Quotes('[', ']')
      case _ => S.Quotes('"', '"')
    }

    predicate Allows(op: string) {
      S.Lower(op) in BuiltinOperators || S.Lower(op) in extra
    }

    function Whitelist(operators: set<string>): Compiler {
      this.(extra := extra + set op <- operators :: S.Lower(op))
    }

    predicate SupportsFilter() { dialect.Postgres? || dialect.SQLite? }

    predicate SupportsConflict() { dialect.MySQL? }

    /** The statement appended for the returnId form ("" for none). */
    function LastId(): string {
      match dialect
      case MySQL => "SELECT last_insert_id() as Id"
      case SQLite => "select last_insert_rowid() as id"
      case Postgres => "SELECT lastval() AS id"
      case SqlServer(_) => "SELECT scope_identity() as Id"
      case _ => ""
    }

    function BoolLiteral(b: bool): string {
      match dialect
      case SQLite => if b then "1" else "0"
      case SqlServer(_) => if b then "cast(1 as bit)" else "cast(0 as bit)"
      case _ => if b then "true" else "false"
    }

    function RandomFunction(): string {
      if dialect.SqlServer? then "NEWID()" else "RANDOM()"
    }
  }

  /** A fragment of output: its text and the arguments bound while printing it.
      The two are kept apart; that they agree is proved in module Alignment. */
  datatype Out = Out(sql: seq<Token>, args: seq<Value>)

  const Nothing := Out([], [])

  function Text(tokens: seq<Token>): Out { Out(tokens, []) }

  function Word(text: string): Out { Out([Sym(text)], []) }

  function Cat(a: Out, b: Out): Out { Out(a.sql + b.sql, a.args + b.args) }

  /** Joins fragments with a separator. */
  function Joined(parts: seq<Out>, sep: string): Out {
    if parts == [] then Nothing
    else if |parts| == 1 then parts[0]
    else Cat(parts[0], Cat(Word(sep), Joined(parts[1..], sep)))
  }

  /** The text "" prints nothing. */
  function Maybe(text: string): seq<Token> { if text == "" then [] else [Sym(text)] }

  // ----- values -------------------------------------------------------------------

  /** The variable definitions in force: the scope chain with the nearest
      definition of every name. */
  type Env = map<string, Value>

  /** Records a value in the argument sequence and prints its placeholder; a
      literal is inlined, a variable is resolved (an undefined one binds null). */
  function Parameter(env: Env, v: Value): Out {
    match v
    case Literal(text) => Out([LitText(text)], [])
    case Variable(name) =>
      if name in env then Out([Hole(Filled(env[name]))], [env[name]])
      else Out([Fault(Undefined(name)), Hole(Filled(Null))], [Null])
    case _ => Out([Hole(Filled(v))], [v])
  }

  function ParameterParts(env: Env, values: seq<Value>): (parts: seq<Out>)
    ensures |parts| == |values|
    ensures forall i :: 0 <= i < |parts| ==> parts[i] == Parameter(env, values[i])
  {
    seq(|values|, i requires 0 <= i < |values| => Parameter(env, values[i]))
  }

  function Parameterize(env: Env, values: seq<Value>): Out {
    Joined(ParameterParts(env, values), ",")
  }

  // ----- raw expressions ------------------------------------------------------------

  /** The text of a raw expression; its k-th "?" stands for the k-th binding. */
  function RawTokens(text: string, bindings: seq<Value>): seq<Token> {
    if text == "" then []
    else if text[0] == '?' then
      if bindings == [] then [Hole(Unfilled)] + RawTokens(text[1..], [])
      else [Hole(Filled(bindings[0]))] + RawTokens(text[1..], bindings[1..])
    else [Chr(text[0])] + RawTokens(text[1..], bindings)
  }

  function ExpressionTokens(c: Compiler, raw: Raw): seq<Token> {
    match raw.expression
    case Written(text) => RawTokens(S.WrapIdentifiers(c.Quotes(), text), raw.bindings)
    case Printed(tokens) => tokens
  }

  function Enclosed(tokens: seq<Token>): seq<Token> { if tokens == [] then [] else [Inner(tokens)] }

  function RawOut(c: Compiler, raw: Raw): Out {
    Out(Enclosed(ExpressionTokens(c, raw)), raw.bindings)
  }

  // ----- conditions without descent ---------------------------------------------------

  function OperatorToken(c: Compiler, op: string): Token {
    if c.Allows(op) then Sym(S.Lower(op)) else Fault(BadOperator(op))
  }

  function Negated(not: bool, out: Out): Out {
    if not then Out([KNot, LParen] + out.sql + [RParen], out.args) else out
  }

  /** The pattern of a LIKE-family condition with its wildcards. */
  function Wildcards(pattern: string, text: string): string {
    if pattern == "starts" then text + "%"
    else if pattern == "ends" then "%" + text
    else if pattern == "contains" then "%" + text + "%"
    else text
  }

  function LikeOut(c: Compiler, column: string, pattern: string, text: string,
                   caseSensitive: bool, escape: string): Out
  {
    var value := Wildcards(pattern, text);
    var escapeText := if escape == "" then [] else [Sym("ESCAPE '" + escape + "'")];
    if c.dialect.Postgres? then
      var method' := if caseSensitive then "like" else "ilike";
      Out([Ident(column), OperatorToken(c, method'), Hole(Filled(Str(value)))] + escapeText, [Str(value)])
    else if caseSensitive then
      Out([Ident(column), OperatorToken(c, "like"), Hole(Filled(Str(value)))] + escapeText, [Str(value)])
    else
      var lowered := Str(S.Lower(value));
      Out([Sym("LOWER("), Ident(column), Sym(")"), OperatorToken(c, "like"), Hole(Filled(lowered))] + escapeText,
          [lowered])
  }

  function StrftimeFormat(part: string): string {
    if part == "date" then "%Y-%m-%d" else if part == "time" then "%H:%M:%S"
    else if part == "year" then "%Y" else if part == "month" then "%m"
    else if part == "day" then "%d" else if part == "hour" then "%H"
    else if part == "minute" then "%M" else ""
  }

  /** The default text form of a value, as far as Oracle's form counts colons in it. */
  function ValueString(v: Value): string {
    match v
    case Str(s) => s
    case Variable(name) => "{" + name + "}"
    case Literal(text) => "{" + text + "}"
    case _ => ""
  }

  /** The text around the column and around the value of a date-part comparison. */
  datatype Frame = Frame(columnBefore: string, columnAfter: string, valueBefore: string, valueAfter: string)

  function DateFrame(c: Compiler, part: string, v: Value): Frame {
    var upper := S.Upper(part);
    match c.dialect
    case SQLite =>
      if StrftimeFormat(part) == "" then Frame("", "", "", "")
      else Frame("strftime('" + StrftimeFormat(part) + "', ", ")", "cast(", " as text)")
    case Postgres =>
      if part == "time" then Frame("", "::time", "", "")
      else if part == "date" then Frame("", "::date", "", "")
      else Frame("DATE_PART('" + upper + "', ", ")", "", "")
    case SqlServer(_) =>
      if upper == "DATE" || upper == "TIME" then Frame("CAST(", " AS " + upper + ")", "", "")
      else Frame("DATEPART(" + upper + ", ", ")", "", "")
    case Oracle(_) =>
      if part == "date" then
        if v.Time? then Frame("TO_CHAR(", ", 'YY-MM-DD')", "TO_CHAR(", ", 'YY-MM-DD')")
        else Frame("TO_CHAR(", ", 'YY-MM-DD')", "TO_CHAR(TO_DATE(", ", 'YY-MM-DD'), 'YY-MM-DD')")
      else if part == "time" then
        if v.Time? then Frame("TO_CHAR(", ", 'HH24:MI:SS')", "TO_CHAR(", ", 'HH24:MI:SS')")
        else if S.CountChar(ValueString(v), ':') == 1 then
          Frame("TO_CHAR(", ", 'HH24:MI:SS')", "TO_CHAR(TO_DATE(", ", 'HH24:MI'), 'HH24:MI:SS')")
        else Frame("TO_CHAR(", ", 'HH24:MI:SS')", "TO_CHAR(TO_DATE(", ", 'HH24:MI:SS'), 'HH24:MI:SS')")
      else if part in {"year", "month", "day", "hour", "minute", "second"} then
        Frame("EXTRACT(" + upper + " FROM ", ")", "", "")
      else Frame("", "", "", "")
    case _ => Frame(upper + "(", ")", "", "")
  }

  /** SQLite prints an unmapped date part as a bare comparison and drops its NOT. */
  predicate DropsNot(c: Compiler, part: string) {
    c.dialect.SQLite? && StrftimeFormat(part) == ""
  }

  function DateOut(c: Compiler, env: Env, part: string, column: string, op: string, v: Value): Out {
    var f := DateFrame(c, part, v);
    var value := Parameter(env, v);
    Out(Maybe(f.columnBefore) + [Ident(column)] + Maybe(f.columnAfter) + [OperatorToken(c, op)]
          + Maybe(f.valueBefore) + value.sql + Maybe(f.valueAfter),
        value.args)
  }

  // ----- ordering ---------------------------------------------------------------------

  function OrderOut(c: Compiler, cl: Clause): Out {
    match cl.body
    case OrderColumn(column, ascending) => Text([Ident(column)] + if ascending then [] else [Sym("DESC")])
    case OrderRaw(raw) => RawOut(c, raw)
    case OrderRandom => Word(c.RandomFunction())
    case _ => Nothing
  }

  function OrderParts(c: Compiler, cs: seq<Clause>): seq<Out> {
    if cs == [] then [] else [OrderOut(c, cs[0])] + OrderParts(c, cs[1..])
  }

  function OrdersOut(parts: seq<Out>): Out {
    if parts == [] then Nothing else Cat(Word("ORDER BY"), Joined(parts, ","))
  }

  // ----- pagination ---------------------------------------------------------------------

  const TWO_63 := 0x8000_0000_0000_0000
  const TWO_64 := 0x1_0000_0000_0000_0000

  /** int64 arithmetic wraps around. */
  function Int64(n: int): int { (n + TWO_63) % TWO_64 - TWO_63 }

  function LimitOf(c: Compiler, cs: seq<Clause>): int {
    var cl := One(cs, Limit, c.Engine());
    if cl.Some? && cl.value.body.LimitTo? then cl.value.body.limit else 0
  }

  function OffsetOf(c: Compiler, cs: seq<Clause>): int {
    var cl := One(cs, Offset, c.Engine());
    if cl.Some? && cl.value.body.OffsetBy? then cl.value.body.offset else 0
  }

  /** Whether the dialect sees what is appended to the query now. */
  predicate AppendsVisibly(c: Compiler, q: Query) {
    c.Engine() == "" || q.engineScope == "" || q.engineScope == c.Engine()
  }

  function Bind(n: int): Out { Out([Hole(Filled(Num(n)))], [Num(n)]) }

  function StandardLimit(limit: int, offset: int): Out {
    if limit == 0 && offset == 0 then Nothing
    else if offset == 0 then Cat(Word("LIMIT"), Bind(limit))
    else if limit == 0 then Cat(Word("OFFSET"), Bind(offset))
    else Cat(Cat(Word("LIMIT"), Bind(limit)), Cat(Word("OFFSET"), Bind(offset)))
  }

  function FetchForm(ordered: bool, filler: string, limit: int, offset: int, bare: bool): Out {
    var order := if ordered then Nothing else Word(filler);
    var skip := Cat(order, Cat(Word("OFFSET"), Cat(Bind(offset), Word("ROWS"))));
    if bare then skip
    else Cat(skip, Cat(Word("FETCH NEXT"), Cat(Bind(limit), Word("ROWS ONLY"))))
  }

  /** The pagination section at the tail of a SELECT. */
  function LimitSection(c: Compiler, ordered: bool, limit: int, offset: int): Out {
    match c.dialect
    case MySQL =>
      if limit == 0 && offset > 0 then Cat(Word("LIMIT 18446744073709551615 OFFSET"), Bind(offset))
      else StandardLimit(limit, offset)
    case SQLite =>
      if limit == 0 && offset > 0 then Cat(Word("LIMIT -1 OFFSET"), Bind(offset))
      else StandardLimit(limit, offset)
    case SqlServer(legacy) =>
      if legacy || offset <= 0 then Nothing
      else FetchForm(ordered, "ORDER BY (SELECT 0)", limit, offset, limit <= 0)
    case Oracle(legacy) =>
      if legacy || (limit == 0 && offset == 0) then Nothing
      else FetchForm(ordered, "ORDER BY (SELECT 0 FROM DUAL)", limit, offset, limit == 0)
    case _ => StandardLimit(limit, offset)
  }

  /** The fragment at the head of a SELECT. */
  function TopSection(c: Compiler, limit: int, offset: int): Out {
    if c.dialect.SqlServer? && limit > 0 && offset <= 0 then
      Cat(Word("TOP ("), Cat(Bind(limit), Word(")")))
    else Nothing
  }

  /** Oracle's legacy form wraps the whole SELECT. */
  function RownumWrap(body: Out, limit: int, offset: int): Out {
    if limit == 0 && offset == 0 then body
    else if limit == 0 then
      Cat(Out([Sym("SELECT * FROM (SELECT \"results_wrapper\".*, ROWNUM \"row_num\" FROM ("), Inner(body.sql),
               Sym(") \"results_wrapper\") WHERE \"row_num\" >")], body.args),
          Bind(offset))
    else if offset == 0 then
      Cat(Out([Sym("SELECT * FROM ("), Inner(body.sql), Sym(") WHERE ROWNUM <=")], body.args), Bind(limit))
    else
      Cat(Out([Sym("SELECT * FROM (SELECT \"results_wrapper\".*, ROWNUM \"row_num\" FROM ("), Inner(body.sql),
               Sym(") \"results_wrapper\" WHERE ROWNUM <=")], body.args),
          Cat(Bind(Int64(limit + offset)), Cat(Word(") WHERE \"row_num\" >"), Bind(offset))))
  }

  /** SQL Server's legacy form filters the row numbers of the recompiled clone. */
  function RowNumberWrap(inner: Out, limit: int, offset: int): Out {
    var head := Out([Sym("SELECT * FROM ("), Inner(inner.sql), Sym(") AS"), Ident("results_wrapper"),
                     Sym("WHERE"), Ident("row_num")], inner.args);
    if limit <= 0 then Cat(head, Cat(Word(">="), Bind(Int64(offset + 1))))
    else Cat(head, Cat(Word("BETWEEN"), Cat(Bind(Int64(offset + 1)),
                   Cat(Word("AND"), Bind(Int64(limit + offset))))))
  }

  /** The columns that SQL Server's legacy form appends: the row number over the
      ordering, and a star when nothing else is projected. */
  function RowNumberColumns(c: Compiler, q: Query): (bodies: seq<Body>)
    ensures |bodies| <= 2
    ensures forall b <- bodies :: (b.Column? || b.RawColumn?) && b.section == Select
  {
    var orders := Components(q.clauses, Order, c.Engine());
    var order := if orders == [] then Word("ORDER BY (SELECT 0)") else OrdersOut(OrderParts(c, orders));
    var projected := Components(Without(q.clauses, {Order, Limit, Offset}), Select, c.Engine()) != [];
    var number := [Sym("ROW_NUMBER() OVER (")] + order.sql + [Sym(") AS"), Ident("row_num")];
    (if projected then [] else [Column(Select, "*")]) + [RawColumn(Select, Raw(Printed(number), order.args))]
  }

  /** The clone that SQL Server's legacy form recompiles: order, limit and offset
      dropped, the row number appended to the projection. */
  function RowNumbered(c: Compiler, q: Query): Query {
    Append(Drop(q, {Order, Limit, Offset}), RowNumberColumns(c, q))
  }

  // ----- the remaining fragments ----------------------------------------------------------

  /** Oracle names columns and tables without AS. */
  function NameText(c: Compiler, name: string): seq<Token> {
    (if c.dialect.Oracle? then [] else [Sym("AS")]) + [Quoted(name)]
  }

  function AliasText(c: Compiler, alias: string): seq<Token> {
    if alias == "" then [] else NameText(c, alias)
  }

  function Commented(out: Out, comment: string): Out {
    if comment == "" then out else Out([Remark(comment)] + out.sql, out.args)
  }

  /** One row of placeholders per value row; the values are bound separately. */
  function TableRow(c: Compiler, columns: seq<string>, row: seq<Value>): Out {
    Out(RowCells(c, columns, row), RowArgs(row))
  }

  /** The placeholder of column i stands for the row's i-th value; a literal
      binds nothing, so its placeholder stands for nothing. */
  function RowCells(c: Compiler, columns: seq<string>, row: seq<Value>): seq<Token> {
    if columns == [] then []
    else
      var slot := if row == [] || row[0].Literal? then Unfilled
                  else if row[0].Variable? then Filled(Null) else Filled(row[0]);
      (if row != [] && row[0].Variable? then [Fault(Undefined(row[0].name))] else [])
        + [Hole(slot)] + (if c.dialect.SqlServer? then [] else [Sym("AS"), Ident(columns[0])])
        + RowCells(c, columns[1..], if row == [] then [] else row[1..])
  }

  /** The values are bound on an empty scope chain. */
  function RowArgs(row: seq<Value>): seq<Value> {
    if row == [] then [] else Parameter(map[], row[0]).args + RowArgs(row[1..])
  }

  function TableRows(c: Compiler, columns: seq<string>, rows: seq<seq<Value>>): seq<Out> {
    if rows == [] then []
    else
      var row := TableRow(c, columns, rows[0]);
      var cells :=
        if c.dialect.SqlServer? then Out([Sym("(")] + row.sql + [Sym(")")], row.args)
        else Out([Sym("SELECT")] + row.sql + (if c.dialect.Oracle? then [Sym("FROM DUAL")] else []), row.args);
      [cells] + TableRows(c, columns, rows[1..])
  }

  function ColumnNames(columns: seq<string>): seq<Token> {
    if columns == [] then [] else [Ident(columns[0])] + ColumnNames(columns[1..])
  }

  function TableOut(c: Compiler, columns: seq<string>, rows: seq<seq<Value>>): Out {
    var parts := TableRows(c, columns, rows);
    if c.dialect.SqlServer? then
      Cat(Text([Sym("SELECT")] + ColumnNames(columns) + [Sym("FROM (VALUES")]),
          Cat(Joined(parts, ","), Text([Sym(") AS tbl (")] + ColumnNames(columns) + [Sym(")")])))
    else Joined(parts, "UNION ALL")
  }

  /** The projection of a query in aggregate shape. */
  function AggregateHead(c: Compiler, kind: string, columns: seq<string>, distinct: bool, top: Out): Out {
    if |columns| != 1 then Cat(Word("SELECT"), Cat(top, Word("1")))
    else Cat(Word("SELECT"), Cat(top,
           Text([Sym(S.Upper(kind) + "(")] + (if distinct then [Sym("DISTINCT")] else [])
                + [Ident(columns[0]), Sym(")")] + NameText(c, kind))))
  }

  function SelectHead(parts: seq<Out>, distinct: bool, top: Out): Out {
    Cat(Text([Sym("SELECT")] + if distinct then [Sym("DISTINCT")] else []),
        Cat(top, if parts == [] then Word("*") else Joined(parts, ",")))
  }

  /** A projected aggregate column with its optional filter condition. */
  function AggregateColumnOut(c: Compiler, aggregate: string, column: string, filter: Out): Out {
    var (name, alias) := S.SplitAlias(column);
    var open := Sym(S.Upper(aggregate) + "(");
    if filter.sql == [] then
      Out([open, Ident(name), Sym(")")] + AliasText(c, alias), filter.args)
    else if c.SupportsFilter() then
      Out([open, Ident(name), Sym(") FILTER (WHERE")] + filter.sql + [Sym(")")] + AliasText(c, alias), filter.args)
    else
      Out([open, Sym("CASE WHEN")] + filter.sql + [Sym("THEN"), Ident(name), Sym("END)")] + AliasText(c, alias),
          filter.args)
  }
}
