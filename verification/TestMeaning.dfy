/** What a single printed test compares, read back without its negation: the operands
    of every condition shape, in their places. */
module TestMeaning {
  import opened Ast
  import opened Conditions
  import opened Dialects
  import opened Emit
  import V = Validation
  import VM = VerbMeaning
  import S = Strings

  /** A value as printed: bound, or inlined. */
  datatype Operand = Given(value: Value) | Inlined(text: string)

  datatype Test =
    | Compared(column: string, lowered: bool, op: string, operand: Operand, escape: Option<string>)
    | Nulled(column: string)
    | Boolean(column: string, truth: bool)
    | Columns(first: string, op: string, second: string)
    | Ranged(column: string, lower: Operand, higher: Operand)
    | Listed(column: string, operands: seq<Operand>)
    | Never
    | InRows(column: string, sql: seq<Token>)
    | RowsCompared(sql: seq<Token>, op: string, operand: Operand)
    | AnyRow(sql: seq<Token>)

  // ----- the reader -------------------------------------------------------------------------------

  function ReadOperand(t: Token): Option<Operand> {
    if t.Hole? && t.slot.Filled? then Some(Given(t.slot.value)) else if t.LitText? then Some(Inlined(t.text)) else None
  }

  /** The truth values of the dialects. */
  function ReadTruthValue(text: string): Option<bool> {
    if text == "true" || text == "1" || text == "cast(1 as bit)" then Some(true)
    else if text == "false" || text == "0" || text == "cast(0 as bit)" then Some(false)
    else None
  }

  /** The items of a list up to its closing parenthesis. */
  function ReadList(ts: seq<Token>): Option<seq<Operand>>
    decreases |ts|
  {
    if |ts| < 2 || ReadOperand(ts[0]).None? then None
    else if |ts| == 2 && ts[1] == Sym(")") then Some([ReadOperand(ts[0]).value])
    else if ts[1] == Sym(",") then
      match ReadList(ts[2..]) case None => None case Some(more) => Some([ReadOperand(ts[0]).value] + more)
    else None
  }

  /** ESCAPE and the character in quotes. */
  function ReadEscape(text: string): Option<string> {
    if |text| >= 9 && text[..8] == "ESCAPE '" && text[|text| - 1] == '\'' then Some(text[8..|text| - 1]) else None
  }

  /** A comparison with an operand, and what may follow it. */
  function ReadCompared(column: string, lowered: bool, ts: seq<Token>): Option<Test> {
    if |ts| < 2 || !ts[0].Sym? || ReadOperand(ts[1]).None? then None
    else if |ts| == 2 then Some(Compared(column, lowered, ts[0].text, ReadOperand(ts[1]).value, None))
    else if |ts| == 3 && ts[2].Sym? && ReadEscape(ts[2].text).Some? then
      Some(Compared(column, lowered, ts[0].text, ReadOperand(ts[1]).value, ReadEscape(ts[2].text)))
    else None
  }

  /** A test of a column, after its name. */
  function ReadOfColumn(column: string, ts: seq<Token>): Option<Test> {
    if ts == [] then None
    else if ts[0] == Sym("IS NULL") && |ts| == 1 then Some(Nulled(column))
    else if ts[0] == Sym("=") && |ts| == 2 && ts[1].Sym? && ReadTruthValue(ts[1].text).Some? then
      Some(Boolean(column, ReadTruthValue(ts[1].text).value))
    else if ts[0].Sym? && |ts| == 2 && ts[1].Ident? then Some(Columns(column, ts[0].text, ts[1].name))
    else if ts[0] == KBetween(false) then
      if |ts| == 4 && ReadOperand(ts[1]).Some? && ts[2].KAnd? && ReadOperand(ts[3]).Some? then
        Some(Ranged(column, ReadOperand(ts[1]).value, ReadOperand(ts[3]).value))
      else None
    else if ts[0] == Sym("IN") && |ts| == 2 && ts[1].Inner? then Some(InRows(column, ts[1].tokens))
    else if ts[0] == Sym("IN") && |ts| >= 2 && ts[1] == Sym("(") then
      match ReadList(ts[2..]) case None => None case Some(operands) => Some(Listed(column, operands))
    else ReadCompared(column, false, ts)
  }

  function ReadTest(ts: seq<Token>): Option<Test> {
    if ts == [] then None
    else if ts == [Sym("1 = 0")] then Some(Never)
    else if ts[0].Ident? then ReadOfColumn(ts[0].name, ts[1..])
    else if |ts| == 2 && ts[0] == Sym("EXISTS") && ts[1].Inner? then Some(AnyRow(ts[1].tokens))
    else if |ts| == 3 && ts[0].Inner? && ts[1].Sym? && ReadOperand(ts[2]).Some? then
      Some(RowsCompared(ts[0].tokens, ts[1].text, ReadOperand(ts[2]).value))
    else if |ts| >= 3 && ts[0] == Sym("LOWER(") && ts[1].Ident? && ts[2] == Sym(")") then ReadCompared(ts[1].name, true, ts[3..])
    else None
  }

  // ----- what a shape asks for -------------------------------------------------------------------------

  function OperandOf(env: Env, v: Value): Operand {
    match v
    case Literal(text) => Inlined(text)
    case Variable(name) => Given(if name in env then env[name] else Null)
    case _ => Given(v)
  }

  function Operands(env: Env, values: seq<Value>): seq<Operand> {
    if values == [] then [] else [OperandOf(env, values[0])] + Operands(env, values[1..])
  }

  /** The pattern of a text match: the wildcard stands where text may go on. */
  function Pattern(kind: string, text: string): string {
    (if kind == "ends" || kind == "contains" then "%" else "") + text + (if kind == "starts" || kind == "contains" then "%" else "")
  }

  predicate Defined(env: Env, v: Value) { v.Variable? ==> v.name in env }

  /** The shapes with an operator need it allowed, and values need a definition. */
  predicate Printable(c: Compiler, env: Env, shape: Shape) {
    match shape
    case Basic(_, op, value) => c.Allows(op) && Defined(env, value)
    case TwoColumns(_, op, _) => c.Allows(op)
    case Between(_, lower, higher) => Defined(env, lower) && Defined(env, higher)
    case In(_, values) => forall v <- values :: Defined(env, v)
    case SubQuery(_, op, value) => c.Allows(op) && Defined(env, value)
    case DatePart(_, _, _, _) => false
    case RawCondition(_) => false
    case Nested(_) => false
    case _ => true
  }

  /** The test of a shape around a subquery that prints as given.  Case does not matter
      in PostgreSQL's ilike; elsewhere column and pattern are lowered. */
  function Asked(c: Compiler, env: Env, shape: Shape, inner: seq<Token>): Test
    requires Printable(c, env, shape)
  {
    match shape
    case Basic(column, op, value) => Compared(column, false, S.Lower(op), OperandOf(env, value), None)
    case IsNull(column) => Nulled(column)
    case IsBool(column, truth) => Boolean(column, truth)
    case TwoColumns(first, op, second) => Columns(first, S.Lower(op), second)
    case Between(column, lower, higher) => Ranged(column, OperandOf(env, lower), OperandOf(env, higher))
    case In(column, values) => if values == [] then Never else Listed(column, Operands(env, values))
    case InQuery(column, _) => InRows(column, inner)
    case SubQuery(_, op, value) => RowsCompared(inner, S.Lower(op), OperandOf(env, value))
    case Exists(_) => AnyRow(inner)
    case Like(column, kind, text, caseSensitive, escape) =>
      var lowered := !caseSensitive && !c.dialect.Postgres?;
      Compared(column, lowered, if !caseSensitive && c.dialect.Postgres? then "ilike" else "like",
               Given(Str(if lowered then S.Lower(Pattern(kind, text)) else Pattern(kind, text))),
               if escape == "" then None else Some(escape))
  }

  // ----- reading back --------------------------------------------------------------------------------------

  lemma {:induction false} OperandReads(env: Env, v: Value)
    requires Defined(env, v)
    ensures var ts := Parameter(env, v).sql; |ts| == 1 && ReadOperand(ts[0]) == Some(OperandOf(env, v))
    ensures var t := Parameter(env, v).sql[0]; !t.Sym? && !t.Ident? && !t.Inner?
  {
  }

  lemma {:induction false} ListReads(env: Env, values: seq<Value>)
    requires values != [] && forall v <- values :: Defined(env, v)
    ensures ReadList(Parameterize(env, values).sql + [Sym(")")]) == Some(Operands(env, values))
  {
    var parts := ParameterParts(env, values);
    assert values[0] in values;
    OperandReads(env, values[0]);
    var t := Parameter(env, values[0]).sql[0];
    assert parts[1..] == ParameterParts(env, values[1..]);
    hide ReadOperand, OperandOf, Parameter;
    if |values| == 1 {
      assert Parameterize(env, values).sql == [t];
      assert Operands(env, values[1..]) == [] && [OperandOf(env, values[0])] + [] == [OperandOf(env, values[0])];
    } else {
      ListReads(env, values[1..]);
      var more := Parameterize(env, values[1..]).sql + [Sym(")")];
      assert Parameterize(env, values).sql == [t] + ([Sym(",")] + Parameterize(env, values[1..]).sql);
      ItemStep(t, more, Parameterize(env, values[1..]).sql);
    }
  }

  lemma {:induction false} ItemStep(t: Token, more: seq<Token>, list: seq<Token>)
    requires more == list + [Sym(")")] && ReadOperand(t).Some?
    ensures ReadList(([t] + ([Sym(",")] + list)) + [Sym(")")]) ==
      match ReadList(more) case None => None case Some(operands) => Some([ReadOperand(t).value] + operands)
  {
    hide ReadOperand;
    var ts := ([t] + ([Sym(",")] + list)) + [Sym(")")];
    assert ts[2..] == more && ts[1] == Sym(",") && ts[0] == t;
    assert ","[0] != ")"[0];
  }

  lemma {:induction false} LowerIsNoKeyword(op: string)
    ensures S.Lower(op) != "IS NULL" && S.Lower(op) != "IN"
  {
    if S.Lower(op) != "" { LowerHead(op); }
  }

  lemma {:induction false} LowerHead(op: string)
    requires S.Lower(op) != ""
    ensures !('A' <= S.Lower(op)[0] <= 'Z')
  {
  }

  lemma {:induction false} BasicReads(c: Compiler, env: Env, column: string, op: string, value: Value)
    requires c.Allows(op) && Defined(env, value)
    ensures ReadTest([Ident(column), OperatorToken(c, op)] + Parameter(env, value).sql) ==
      Some(Compared(column, false, S.Lower(op), OperandOf(env, value), None))
  {
    OperandReads(env, value);
    LowerIsNoKeyword(op);
    var t := Parameter(env, value).sql[0];
    hide Parameter, OperandOf, ReadOperand, S.Lower, ReadTruthValue, ReadList, ReadEscape;
    var ts := [Ident(column), OperatorToken(c, op)] + Parameter(env, value).sql;
    assert ts == [Ident(column), Sym(S.Lower(op)), t];
    assert ts[1..] == [Sym(S.Lower(op)), t];
  }

  lemma {:induction false} ColumnsRead(c: Compiler, first: string, op: string, second: string)
    requires c.Allows(op)
    ensures ReadTest([Ident(first), OperatorToken(c, op), Ident(second)]) == Some(Columns(first, S.Lower(op), second))
  {
    LowerIsNoKeyword(op);
    hide S.Lower, ReadTruthValue, ReadList, ReadEscape, ReadCompared;
    assert [Ident(first), OperatorToken(c, op), Ident(second)][1..] == [OperatorToken(c, op), Ident(second)];
  }

  lemma {:induction false} NullReads(column: string)
    ensures ReadTest([Ident(column), Sym("IS NULL")]) == Some(Nulled(column))
  {
    assert [Ident(column), Sym("IS NULL")][1..] == [Sym("IS NULL")];
  }

  lemma {:induction false} TruthReads(c: Compiler, truth: bool)
    ensures ReadTruthValue(c.BoolLiteral(truth)) == Some(truth)
  {
    assert |"true"| == 4 && |"false"| == 5 && |"1"| == 1 && |"0"| == 1 && "1"[0] != "0"[0];
    assert |"cast(1 as bit)"| == 14 && |"cast(0 as bit)"| == 14 && "cast(1 as bit)"[5] != "cast(0 as bit)"[5];
  }

  lemma {:induction false} BooleanReads(c: Compiler, column: string, truth: bool)
    ensures ReadTest([Ident(column), Sym("="), Sym(c.BoolLiteral(truth))]) == Some(Boolean(column, truth))
  {
    TruthReads(c, truth);
    hide ReadTruthValue;
    assert [Ident(column), Sym("="), Sym(c.BoolLiteral(truth))][1..] == [Sym("="), Sym(c.BoolLiteral(truth))];
    assert |"="| == 1 && |"IS NULL"| == 7;
  }

  lemma {:induction false} RangeReads(env: Env, column: string, lower: Value, higher: Value)
    requires Defined(env, lower) && Defined(env, higher)
    ensures ReadTest([Ident(column), KBetween(false)] + (Parameter(env, lower).sql + ([KAnd] + Parameter(env, higher).sql))) ==
      Some(Ranged(column, OperandOf(env, lower), OperandOf(env, higher)))
  {
    OperandReads(env, lower);
    OperandReads(env, higher);
    var a, b := Parameter(env, lower).sql[0], Parameter(env, higher).sql[0];
    hide Parameter, OperandOf, ReadOperand, ReadCompared, ReadList, ReadTruthValue;
    var ts := [Ident(column), KBetween(false)] + (Parameter(env, lower).sql + ([KAnd] + Parameter(env, higher).sql));
    assert ts == [Ident(column), KBetween(false), a, KAnd, b];
    assert ts[1..] == [KBetween(false), a, KAnd, b];
  }

  lemma {:induction false} InReads(env: Env, column: string, values: seq<Value>)
    requires values != [] && forall v <- values :: Defined(env, v)
    ensures ReadTest([Ident(column), Sym("IN"), Sym("(")] + (Parameterize(env, values).sql + [Sym(")")])) ==
      Some(Listed(column, Operands(env, values)))
  {
    ListReads(env, values);
    hide Parameterize, Operands, ReadList, ReadCompared, ReadTruthValue;
    var list := Parameterize(env, values).sql + [Sym(")")];
    var ts := [Ident(column), Sym("IN"), Sym("(")] + list;
    assert ts[1..] == [Sym("IN"), Sym("(")] + list && ts[1..][2..] == list;
    assert |"IN"| == 2 && |"IS NULL"| == 7 && |"="| == 1;
    assert ts != [Sym("1 = 0")] by { assert ts[0].Ident?; }
  }

  lemma {:induction false} RowsRead(c: Compiler, env: Env, column: string, op: string, value: Value, sql: seq<Token>)
    ensures ReadTest([Ident(column), Sym("IN"), Inner(sql)]) == Some(InRows(column, sql))
    ensures ReadTest([Sym("EXISTS"), Inner(sql)]) == Some(AnyRow(sql))
    ensures c.Allows(op) && Defined(env, value) ==>
      ReadTest([Inner(sql), OperatorToken(c, op)] + Parameter(env, value).sql) == Some(RowsCompared(sql, S.Lower(op), OperandOf(env, value)))
  {
    hide ReadCompared, ReadList, ReadTruthValue, S.Lower;
    assert [Ident(column), Sym("IN"), Inner(sql)][1..] == [Sym("IN"), Inner(sql)];
    assert |"IN"| == 2 && |"IS NULL"| == 7 && |"="| == 1;
    if c.Allows(op) && Defined(env, value) {
      OperandReads(env, value);
      hide Parameter, OperandOf, ReadOperand;
      var t := Parameter(env, value).sql[0];
      assert [Inner(sql), OperatorToken(c, op)] + Parameter(env, value).sql == [Inner(sql), Sym(S.Lower(op)), t];
    }
  }

  lemma {:induction false} EscapeReads(escape: string)
    requires escape != ""
    ensures ReadEscape("ESCAPE '" + escape + "'") == Some(escape)
  {
    var text := "ESCAPE '" + escape + "'";
    assert text[..8] == "ESCAPE '" && text[8..|text| - 1] == escape && text[|text| - 1] == '\'';
  }

  /** What follows the pattern of a text match. */
  function EscapeText(escape: string): seq<Token> { if escape == "" then [] else [Sym("ESCAPE '" + escape + "'")] }

  lemma {:induction false} ComparedReads(column: string, lowered: bool, op: string, value: Value, escape: string)
    ensures ReadCompared(column, lowered, [Sym(op), Hole(Filled(value))] + EscapeText(escape)) ==
      Some(Compared(column, lowered, op, Given(value), if escape == "" then None else Some(escape)))
  {
    if escape != "" { EscapeReads(escape); }
    hide ReadEscape;
  }

  lemma {:induction false} MatchReads(column: string, op: string, value: Value, escape: string)
    requires op == "like" || op == "ilike"
    ensures ReadTest([Ident(column), Sym(op), Hole(Filled(value))] + EscapeText(escape)) ==
      Some(Compared(column, false, op, Given(value), if escape == "" then None else Some(escape)))
    ensures ReadTest([Sym("LOWER("), Ident(column), Sym(")"), Sym(op), Hole(Filled(value))] + EscapeText(escape)) ==
      Some(Compared(column, true, op, Given(value), if escape == "" then None else Some(escape)))
  {
    ComparedReads(column, false, op, value, escape);
    ComparedReads(column, true, op, value, escape);
    hide ReadCompared, ReadList, ReadTruthValue;
    var rest := [Sym(op), Hole(Filled(value))] + EscapeText(escape);
    var plain, lowered := [Ident(column), Sym(op), Hole(Filled(value))] + EscapeText(escape),
                          [Sym("LOWER("), Ident(column), Sym(")"), Sym(op), Hole(Filled(value))] + EscapeText(escape);
    assert plain[1..] == rest && lowered[3..] == rest;
    assert |"like"| == 4 && |"ilike"| == 5 && |"IS NULL"| == 7 && |"IN"| == 2 && |"="| == 1;
    assert |"LOWER("| == 6 && |"EXISTS"| == 6 && "LOWER("[0] != "EXISTS"[0];
  }

  lemma {:induction false} PatternIs(kind: string, text: string)
    ensures Wildcards(kind, text) == Pattern(kind, text)
  {
    assert "" + text + "%" == text + "%" && "%" + text + "" == "%" + text && "" + text + "" == text;
    assert |"ends"| == 4 && |"starts"| == 6 && |"contains"| == 8;
  }

  lemma {:induction false} LikeReads(c: Compiler, env: Env, shape: Shape)
    requires shape.Like? && Printable(c, env, shape)
    ensures ReadTest(LikeOut(c, shape.column, shape.pattern, shape.text, shape.caseSensitive, shape.escape).sql) == Some(Asked(c, env, shape, []))
  {
    var Like(column, kind, text, caseSensitive, escape) := shape;
    PatternIs(kind, text);
    LikeAllowed(c);
    hide Wildcards, Pattern, S.Lower, ReadTest;
    MatchReads(column, "like", Str(Pattern(kind, text)), escape);
    MatchReads(column, "ilike", Str(Pattern(kind, text)), escape);
    MatchReads(column, "like", Str(S.Lower(Pattern(kind, text))), escape);
  }

  lemma {:induction false} LikeAllowed(c: Compiler)
    ensures S.Lower("like") == "like" && S.Lower("ilike") == "ilike" && c.Allows("like") && c.Allows("ilike")
  {
  }

  /** What acceptance of a condition says about its shape. */
  lemma {:induction false} AcceptedIsPrintable(c: Compiler, cl: Clause, env: Env)
    requires V.ClauseOk(c, cl, env) && cl.body.Condition? && Visible(cl, c.Engine()) && (Tag(cl) == Where || Tag(cl) == Having)
    requires !cl.body.shape.DatePart? && !cl.body.shape.RawCondition? && !cl.body.shape.Nested?
    ensures Printable(c, env, cl.body.shape)
  {
    hide V.ClauseProblems;
    assert V.ConditionOk(c, cl) && V.ValuesOk(V.ShapeValues(cl.body.shape), env);
    match cl.body.shape
    case Basic(_, _, value) => assert value in V.ShapeValues(cl.body.shape);
    case Between(_, lower, higher) =>
      assert lower in V.ShapeValues(cl.body.shape) && higher in V.ShapeValues(cl.body.shape);
    case SubQuery(_, _, value) => assert value in V.ShapeValues(cl.body.shape);
    case _ =>
  }

  /** Every shape of condition but dates, raw text and groups: the predicate printed
      without its negation is the test that the shape asks for, every operand in its
      place. */
  lemma {:induction false} TestReads(c: Compiler, env: Env, shape: Shape, inner: Out)
    requires Printable(c, env, shape)
    ensures ReadTest(ShapeOut(c, env, false, shape, inner).sql) == Some(Asked(c, env, shape, inner.sql))
  {
    hide ReadTest, Parameter, Parameterize, OperatorToken, LikeOut, DateOut, OperandOf, Operands, S.Lower;
    match shape
    case Basic(column, op, value) => BasicReads(c, env, column, op, value);
    case IsNull(column) => NullReads(column);
    case IsBool(column, truth) => BooleanReads(c, column, truth);
    case TwoColumns(first, op, second) =>
      ColumnsRead(c, first, op, second);
      assert [] + [Ident(first), OperatorToken(c, op), Ident(second)] == [Ident(first), OperatorToken(c, op), Ident(second)];
    case Between(column, lower, higher) => RangeReads(env, column, lower, higher);
    case In(column, values) =>
      if values == [] { NeverReads(); } else { InReads(env, column, values); }
    case InQuery(column, _) => RowsRead(c, env, column, "=", Null, inner.sql);
    case SubQuery(_, op, value) => RowsRead(c, env, "", op, value, inner.sql);
    case Exists(_) => RowsRead(c, env, "", "=", Null, inner.sql);
    case Like(_, _, _, _, _) => LikeReads(c, env, shape);
  }

  lemma {:induction false} NeverReads()
    ensures ReadTest([Sym("1 = 0")]) == Some(Never)
  {
  }

  /** So the truth of a condition is that of its test, for any way to decide tests. */
  lemma {:induction false} TestDecides(c: Compiler, env: Env, decide: Test -> Truth, I: Reading, not: bool, shape: Shape)
    requires Printable(c, env, shape)
    requires forall ts :: ReadTest(ts).Some? ==> I(ts) == decide(ReadTest(ts).value)
    ensures VM.Test(c, env, I, not, shape) == NotIf(not, decide(Asked(c, env, shape, EmitShape(c, env, shape).sql)))
  {
    TestReads(c, env, shape, EmitShape(c, env, shape));
    hide ReadTest, ShapeOut, EmitShape, Asked, RawOut;
  }
}
