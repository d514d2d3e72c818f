/** The keywords that open the sections of a SELECT, and that no other fragment
    prints at the top level: what makes the printed text readable section by section. */
module Keywords {
  import opened Ast
  import opened Dialects
  import opened Emit
  import S = Strings

  const PageWords: set<string> := {
    "LIMIT", "OFFSET", "LIMIT 18446744073709551615 OFFSET", "LIMIT -1 OFFSET",
    "ORDER BY (SELECT 0)", "ORDER BY (SELECT 0 FROM DUAL)"}

  const Words: set<string> := PageWords + {"FROM", "WHERE"}

  /** The operations that combine two queries. */
  const Combinators: set<string> := {"UNION", "EXCEPT", "INTERSECT"}

  /** All words that open a section of a SELECT, or the tail of an upsert. */
  const Openers: set<string> := Words + Combinators + {"GROUP BY", "HAVING", "ORDER BY", "ON DUPLICATE KEY UPDATE"}

  /** Those, and the words inside of the join section. */
  const Marks: set<string> := Openers + JoinKinds + {"ON"}

  predicate Opens(t: Token, words: set<string>) { t.Sym? && t.text in words }

  /** No token opens with one of the words. */
  predicate Free(ts: seq<Token>, words: set<string>) { forall t <- ts :: !Opens(t, words) }

  predicate Quiet(ts: seq<Token>) { Free(ts, Words) }

  predicate Calm(ts: seq<Token>) { Free(ts, Marks) }

  // ----- splitting at a keyword -----------------------------------------------------------

  /** The tokens before the first one that opens with one of the words. */
  function UpTo(ts: seq<Token>, words: set<string>): (r: seq<Token>)
    ensures |r| <= |ts| && ts == r + ts[|r|..]
  {
    if ts == [] || Opens(ts[0], words) then [] else [ts[0]] + UpTo(ts[1..], words)
  }

  function From(ts: seq<Token>, words: set<string>): seq<Token> { ts[|UpTo(ts, words)|..] }

  lemma {:induction false} SplitsAt(a: seq<Token>, b: seq<Token>, words: set<string>)
    requires Free(a, words)
    requires b == [] || Opens(b[0], words)
    ensures UpTo(a + b, words) == a && From(a + b, words) == b
  {
    if a == [] {
      assert a + b == b;
    } else {
      assert (a + b)[1..] == a[1..] + b;
      SplitsAt(a[1..], b, words);
    }
  }

  // ----- texts that are no keywords ---------------------------------------------------------

  predicate Capital(ch: char) { 'A' <= ch <= 'Z' }

  lemma {:induction false} WordsLook(w: string)
    requires w in Marks
    ensures w != "" && Capital(w[0]) && w[|w| - 1] in "MTENYG)" && (w[|w| - 1] == ')' ==> w[0] == 'O')
  {
  }

  lemma {:induction false} LowerIsNoWord(s: string)
    ensures S.Lower(s) !in Marks
  {
    if S.Lower(s) in Marks {
      WordsLook(S.Lower(s));
      LowerHead(s);
    }
  }

  lemma {:induction false} LowerHead(s: string)
    ensures S.Lower(s) != "" ==> !Capital(S.Lower(s)[0])
  {
  }

  /** A text that ends like a call's opening is no keyword. */
  lemma {:induction false} OpenIsNoWord(s: string)
    ensures s + "(" !in Marks
  {
    assert (s + "(")[|s + "("| - 1] == '(';
    if s + "(" in Marks { WordsLook(s + "("); }
  }

  lemma {:induction false} EndIsNoWord(s: string, last: char)
    requires last !in "MTENYG)"
    ensures s + [last] !in Marks
  {
    assert (s + [last])[|s + [last]| - 1] == last;
    if s + [last] in Marks { WordsLook(s + [last]); }
  }

  lemma {:induction false} SmallIsNoWord(s: string)
    requires s == "" || !Capital(s[0])
    ensures s !in Marks
  {
    if s in Marks { WordsLook(s); }
  }

  // ----- composition --------------------------------------------------------------------------

  lemma {:induction false} FreeCat(a: seq<Token>, b: seq<Token>, words: set<string>)
    ensures Free(a + b, words) <==> Free(a, words) && Free(b, words)
  {
    if Free(a + b, words) {
      forall t | t in a ensures !Opens(t, words) { assert t in a + b; }
      forall t | t in b ensures !Opens(t, words) { assert t in a + b; }
    }
  }

  lemma {:induction false} FreeJoined(parts: seq<Out>, sep: string, words: set<string>)
    requires (forall p <- parts :: Free(p.sql, words)) && sep !in words
    ensures Free(Joined(parts, sep).sql, words)
  {
    if |parts| > 1 {
      FreeJoined(parts[1..], sep, words);
      FreeCat([Sym(sep)], Joined(parts[1..], sep).sql, words);
      FreeCat(parts[0].sql, [Sym(sep)] + Joined(parts[1..], sep).sql, words);
    }
  }

  lemma {:induction false} FreeConnect(cs: seq<Clause>, parts: seq<Out>, started: bool, words: set<string>)
    requires |cs| == |parts| && forall p <- parts :: Free(p.sql, words)
    ensures Free(Connect(cs, parts, started).sql, words)
  {
    if cs != [] {
      var rest := Connect(cs[1..], parts[1..], started || parts[0].sql != []).sql;
      FreeConnect(cs[1..], parts[1..], started || parts[0].sql != [], words);
      FreeCat(parts[0].sql, rest, words);
      FreeCat([Connective(cs[0])], parts[0].sql, words);
      FreeCat([Connective(cs[0])] + parts[0].sql, rest, words);
    }
  }

  predicate AllQuiet(parts: seq<Out>) { forall p <- parts :: Quiet(p.sql) }

  predicate AllCalm(parts: seq<Out>) { forall p <- parts :: Calm(p.sql) }

  lemma {:induction false} FreeWithin(ts: seq<Token>, words: set<string>, more: set<string>)
    requires Free(ts, more) && words <= more
    ensures Free(ts, words)
  {
    forall t | t in ts ensures !Opens(t, words) { assert !Opens(t, more); }
  }

  lemma {:induction false} CalmIsQuiet(ts: seq<Token>)
    requires Calm(ts)
    ensures Quiet(ts) && Free(ts, Openers)
  {
    FreeWithin(ts, Openers, Marks);
    FreeWithin(ts, Words, Openers);
  }

  lemma {:induction false} QuietJoined(parts: seq<Out>, sep: string)
    requires AllQuiet(parts) && sep !in Words
    ensures Quiet(Joined(parts, sep).sql)
  {
    FreeJoined(parts, sep, Words);
  }

  lemma {:induction false} QuietConnect(cs: seq<Clause>, parts: seq<Out>, started: bool)
    requires |cs| == |parts| && AllQuiet(parts)
    ensures Quiet(Connect(cs, parts, started).sql)
  {
    FreeConnect(cs, parts, started, Words);
  }

  lemma {:induction false} CalmCat(a: seq<Token>, b: seq<Token>)
    ensures Calm(a + b) <==> Calm(a) && Calm(b)
  {
    FreeCat(a, b, Marks);
  }

  lemma {:induction false} CalmJoined(parts: seq<Out>, sep: string)
    requires AllCalm(parts) && sep !in Marks
    ensures Calm(Joined(parts, sep).sql)
  {
    FreeJoined(parts, sep, Marks);
  }

  lemma {:induction false} CalmConnect(cs: seq<Clause>, parts: seq<Out>, started: bool)
    requires |cs| == |parts| && AllCalm(parts)
    ensures Calm(Connect(cs, parts, started).sql)
  {
    FreeConnect(cs, parts, started, Marks);
  }

  // ----- values and conditions --------------------------------------------------------------------

  lemma {:induction false} CalmParameter(env: Env, v: Value)
    ensures Calm(Parameter(env, v).sql)
  {
  }

  lemma {:induction false} CalmParameters(env: Env, values: seq<Value>)
    ensures Calm(Parameterize(env, values).sql)
  {
    forall part | part in ParameterParts(env, values) ensures Calm(part.sql) {
      var i :| 0 <= i < |values| && part == ParameterParts(env, values)[i];
      CalmParameter(env, values[i]);
    }
    SmallIsNoWord(",");
    CalmJoined(ParameterParts(env, values), ",");
  }

  lemma {:induction false} CalmOperator(c: Compiler, op: string)
    ensures Calm([OperatorToken(c, op)])
  {
    LowerIsNoWord(op);
  }

  lemma {:induction false} CalmNegated(not: bool, o: Out)
    requires Calm(o.sql)
    ensures Calm(Negated(not, o).sql)
  {
  }

  lemma {:induction false} CalmMaybe(text: string)
    requires text !in Marks
    ensures Calm(Maybe(text))
  {
  }

  lemma {:induction false} CalmLike(c: Compiler, column: string, pattern: string, text: string, caseSensitive: bool, escape: string)
    ensures Calm(LikeOut(c, column, pattern, text, caseSensitive, escape).sql)
  {
    hide Wildcards, S.Lower;
    CalmOperator(c, "like");
    CalmOperator(c, "ilike");
    EndIsNoWord("ESCAPE '" + escape, '\'');
    assert "ESCAPE '" + escape + "'" == ("ESCAPE '" + escape) + ['\''];
    EndIsNoWord("LOWER", '(');
    assert "LOWER" + ['('] == "LOWER(";
    LoneParenthesis();
    hide OperatorToken;
  }

  lemma {:induction false} LoneParenthesis()
    ensures ")" !in Marks && "(" !in Marks
  {
  }

  lemma {:induction false} CalmDate(c: Compiler, env: Env, part: string, column: string, op: string, v: Value)
    ensures Calm(DateOut(c, env, part, column, op, v).sql)
  {
    var f := DateFrame(c, part, v);
    FramesAreNoWords(c, part, v);
    hide DateFrame;
    CalmMaybe(f.columnBefore);
    CalmMaybe(f.columnAfter);
    CalmMaybe(f.valueBefore);
    CalmMaybe(f.valueAfter);
    CalmOperator(c, op);
    CalmParameter(env, v);
    hide Maybe, OperatorToken, Parameter;
    CalmIdent(column);
    hide Calm;
    var head := Maybe(f.columnBefore) + [Ident(column)];
    CalmCat(Maybe(f.columnBefore), [Ident(column)]);
    CalmCat(head, Maybe(f.columnAfter));
    CalmCat(head + Maybe(f.columnAfter), [OperatorToken(c, op)]);
    CalmCat(head + Maybe(f.columnAfter) + [OperatorToken(c, op)], Maybe(f.valueBefore));
    var middle := head + Maybe(f.columnAfter) + [OperatorToken(c, op)] + Maybe(f.valueBefore);
    CalmCat(middle, Parameter(env, v).sql);
    CalmCat(middle + Parameter(env, v).sql, Maybe(f.valueAfter));
  }

  lemma {:induction false} CalmIdent(name: string)
    ensures Calm([Ident(name)])
  {
  }

  /** A text that begins small, or ends outside of what keywords end with. */
  predicate NoWord(s: string) {
    s == "" || !Capital(s[0]) || s[|s| - 1] !in "MTENYG)"
  }

  lemma {:induction false} NoWordIsNone(s: string)
    requires NoWord(s)
    ensures s !in Marks
  {
    if s in Marks { WordsLook(s); }
  }

  lemma {:induction false} FramesAreNoWords(c: Compiler, part: string, v: Value)
    ensures var f := DateFrame(c, part, v);
      f.columnBefore !in Marks && f.columnAfter !in Marks && f.valueBefore !in Marks && f.valueAfter !in Marks
  {
    var f := DateFrame(c, part, v);
    FramesLook(c, part, v);
    hide DateFrame, NoWord;
    NoWordIsNone(f.columnBefore);
    NoWordIsNone(f.columnAfter);
    NoWordIsNone(f.valueBefore);
    NoWordIsNone(f.valueAfter);
  }

  lemma {:induction false} FramesLook(c: Compiler, part: string, v: Value)
    ensures var f := DateFrame(c, part, v);
      NoWord(f.columnBefore) && NoWord(f.columnAfter) && NoWord(f.valueBefore) && NoWord(f.valueAfter)
  {
    hide S.Upper, StrftimeFormat, S.CountChar, ValueString;
    OpeningsLook(S.Upper(part), StrftimeFormat(part));
    ClosingsLook(S.Upper(part));
    hide NoWord;
  }

  lemma {:induction false} OpeningsLook(upper: string, format: string)
    ensures NoWord(upper + "(") && NoWord("CAST(") && NoWord("TO_CHAR(") && NoWord("TO_CHAR(TO_DATE(") && NoWord("cast(")
    ensures NoWord("DATEPART(" + upper + ", ") && NoWord("DATE_PART('" + upper + "', ")
    ensures NoWord("EXTRACT(" + upper + " FROM ") && NoWord("strftime('" + format + "', ")
  {
  }

  lemma {:induction false} ClosingsLook(upper: string)
    ensures NoWord("") && NoWord(")") && NoWord("::time") && NoWord("::date") && NoWord(" as text)") && NoWord(" AS " + upper + ")")
    ensures NoWord(", 'YY-MM-DD')") && NoWord(", 'YY-MM-DD'), 'YY-MM-DD')") && NoWord(", 'HH24:MI:SS')")
    ensures NoWord(", 'HH24:MI'), 'HH24:MI:SS')") && NoWord(", 'HH24:MI:SS'), 'HH24:MI:SS')")
  {
  }

  lemma {:induction false} CalmShape(c: Compiler, env: Env, not: bool, shape: Shape, inner: Out)
    requires shape.Nested? ==> Calm(inner.sql)
    ensures Calm(ShapeOut(c, env, not, shape, inner).sql)
  {
    hide Parameter, Parameterize, LikeOut, DateOut, OperatorToken, ExpressionTokens, Marks, Words, PageWords, JoinKinds, Negated;
    PlainKeywords();
    match shape
    case Basic(column, op, value) =>
      CalmParameter(env, value);
      CalmOperator(c, op);
      CalmNegated(not, Cat(Text([Ident(column), OperatorToken(c, op)]), Parameter(env, value)));
    case RawCondition(_) =>
    case IsNull(_) =>
    case IsBool(_, truth) => BoolIsNoWord(c, truth);
    case TwoColumns(_, op, _) => CalmOperator(c, op);
    case Between(_, lower, higher) => CalmParameter(env, lower); CalmParameter(env, higher);
    case In(_, values) => CalmParameters(env, values);
    case InQuery(_, _) =>
    case SubQuery(_, op, value) => CalmOperator(c, op); CalmParameter(env, value);
    case Exists(_) =>
    case Nested(_) =>
    case Like(column, pattern, text, caseSensitive, escape) =>
      CalmLike(c, column, pattern, text, caseSensitive, escape);
      CalmNegated(not, LikeOut(c, column, pattern, text, caseSensitive, escape));
    case DatePart(part, column, op, value) =>
      CalmDate(c, env, part, column, op, value);
      CalmNegated(not && !DropsNot(c, part), DateOut(c, env, part, column, op, value));
  }

  lemma {:induction false} PlainKeywords()
    ensures "IS NOT NULL" !in Marks && "IS NULL" !in Marks && "!=" !in Marks && "=" !in Marks && "1 = 1" !in Marks
    ensures "1 = 0" !in Marks && "NOT IN" !in Marks && "IN" !in Marks && "(" !in Marks && ")" !in Marks
    ensures "NOT EXISTS" !in Marks && "EXISTS" !in Marks
  {
    InIsNoWord();
    LoneParenthesis();
    hide Marks;
    NoWordIsNone("IS NOT NULL");
    NoWordIsNone("IS NULL");
    NoWordIsNone("!=");
    NoWordIsNone("=");
    NoWordIsNone("1 = 1");
    NoWordIsNone("1 = 0");
    NoWordIsNone("NOT EXISTS");
    NoWordIsNone("EXISTS");
  }

  lemma {:induction false} InIsNoWord()
    ensures "NOT IN" !in Marks && "IN" !in Marks
  {
  }

  lemma {:induction false} BoolIsNoWord(c: Compiler, b: bool)
    ensures c.BoolLiteral(b) !in Marks
  {
    SmallIsNoWord(c.BoolLiteral(b));
  }

  // ----- clauses --------------------------------------------------------------------------------------

  /** The clauses of the sections of a SELECT other than its joins. */
  predicate InSection(cl: Clause) { Tag(cl) in {Select, Ast.From, Where, Joins, Group, Having} && !cl.body.Join? }

  /** Those, and joins of the kinds that the verbs make. */
  predicate InSelect(cl: Clause) { InSection(cl) || (cl.body.Join? && cl.body.kind in JoinKinds) }

  lemma {:induction false} CalmName(c: Compiler, name: string)
    ensures Calm(NameText(c, name))
  {
    EndIsNoWord("A", 'S');
    assert "A" + ['S'] == "AS";
  }

  lemma {:induction false} CalmAlias(c: Compiler, alias: string)
    ensures Calm(AliasText(c, alias))
  {
    CalmName(c, alias);
  }

  lemma {:induction false} CalmAggregateColumn(c: Compiler, aggregate: string, column: string, filter: Out)
    requires Calm(filter.sql)
    ensures Calm(AggregateColumnOut(c, aggregate, column, filter).sql)
  {
    var (name, alias) := S.SplitAlias(column);
    CalmAlias(c, alias);
    OpenIsNoWord(S.Upper(aggregate));
    ColumnTexts();
    hide S.SplitAlias, S.Upper, AliasText;
  }

  lemma {:induction false} ColumnTexts()
    ensures ")" !in Marks && ") FILTER (WHERE" !in Marks && "CASE WHEN" !in Marks && "THEN" !in Marks && "END)" !in Marks
  {
    CaseIsNoWord();
    LoneParenthesis();
    hide Marks;
    NoWordIsNone(") FILTER (WHERE");
  }

  lemma {:induction false} CaseIsNoWord()
    ensures "CASE WHEN" !in Marks && "THEN" !in Marks && "END)" !in Marks
  {
  }

  lemma {:induction false} CalmClauses(c: Compiler, env: Env, cs: seq<Clause>)
    requires forall cl <- cs :: InSection(cl)
    ensures AllCalm(EmitClauses(c, env, cs))
    decreases ClausesSize(cs), 3
  {
    hide Calm, InSection, EmitClause;
    if cs != [] {
      CalmClause(c, env, cs[0]);
      CalmClauses(c, env, cs[1..]);
    }
  }

  lemma {:induction false} CalmGroup(c: Compiler, env: Env, group: Query)
    ensures Calm(EmitGroup(c, env, group).sql)
    decreases QuerySize(group), 2
  {
    var cs := Components(group.clauses, Where, c.Engine());
    WhereInSection(cs);
    hide Calm, InSection, EmitClauses, Components;
    CalmClauses(c, env, cs);
    CalmConnect(cs, EmitClauses(c, env, cs), false);
  }

  lemma {:induction false} WhereInSection(cs: seq<Clause>)
    requires forall cl <- cs :: Tag(cl) == Where || Tag(cl) == Ast.From
    ensures forall cl <- cs :: InSection(cl)
  {
  }

  lemma {:induction false} CalmClause(c: Compiler, env: Env, cl: Clause)
    requires InSection(cl)
    ensures Calm(EmitClause(c, env, cl).sql)
    decreases ClauseSize(cl), 2
  {
    LoneParenthesis();
    hide Marks, EmitSelect, EmitShape, EmitGroup, EmitClauses, ShapeOut, AggregateColumnOut, JoinOut, AliasText, ExpressionTokens;
    match cl.body
    case FromQuery(q) => CalmAlias(c, q.alias);
    case QueryColumn(q) => CalmAlias(c, q.alias);
    case AggregateColumn(aggregate, column, filter) =>
      if filter.Some? { CalmGroup(c, env, filter.value); }
      CalmAggregateColumn(c, aggregate, column, if filter.Some? then EmitGroup(c, env, filter.value) else Nothing);
    case Condition(_, _, not, shape) =>
      assert ClauseSize(cl) == ShapeSize(shape);
      if shape.Nested? {
        assert ShapeSize(shape) == 1 + QuerySize(shape.group);
        NestedShape(c, env, shape);
        CalmGroup(c, env, shape.group);
      }
      CalmShape(c, env, not, shape, EmitShape(c, env, shape));
    case _ =>
  }

  lemma {:induction false} NestedShape(c: Compiler, env: Env, shape: Shape)
    requires shape.Nested?
    ensures EmitShape(c, env, shape) == EmitGroup(c, env, shape.group)
  {
  }

  /** A join prints no word that opens a section. */
  lemma {:induction false} JoinFree(c: Compiler, env: Env, kind: string, cs: seq<Clause>)
    requires kind in JoinKinds
    ensures Free(JoinOut(kind, EmitClauses(c, env, Chosen(c, cs, Ast.From)),
                         Chosen(c, cs, Where), EmitClauses(c, env, Chosen(c, cs, Where))).sql, Openers)
  {
    var target, conditions := Chosen(c, cs, Ast.From), Chosen(c, cs, Where);
    WhereInSection(target);
    WhereInSection(conditions);
    hide EmitClauses, Chosen, Connect, Openers, InSection;
    CalmClauses(c, env, target);
    CalmClauses(c, env, conditions);
    CalmConnect(conditions, EmitClauses(c, env, conditions), false);
    hide Calm;
    if target != [] { CalmIsQuiet(EmitClauses(c, env, target)[0].sql); }
    CalmIsQuiet(Connect(conditions, EmitClauses(c, env, conditions), false).sql);
    JoinWords(kind);
  }

  lemma {:induction false} JoinWords(kind: string)
    requires kind in JoinKinds
    ensures kind !in Openers && "ON" !in Openers
  {
  }

  lemma {:induction false} QuietClauses(c: Compiler, env: Env, cs: seq<Clause>)
    requires forall cl <- cs :: InSelect(cl)
    ensures AllQuiet(EmitClauses(c, env, cs))
  {
    hide Quiet, InSection, EmitClause, Calm;
    if cs != [] {
      QuietClause(c, env, cs[0]);
      QuietClauses(c, env, cs[1..]);
    }
  }

  lemma {:induction false} QuietClause(c: Compiler, env: Env, cl: Clause)
    requires InSelect(cl)
    ensures Quiet(EmitClause(c, env, cl).sql)
  {
    WordsOpen();
    hide InSection, Calm, Openers, Words, Free, JoinKinds, JoinOut, EmitClauses, Chosen;
    if InSection(cl) {
      CalmClause(c, env, cl);
      CalmIsQuiet(EmitClause(c, env, cl).sql);
    } else {
      var Join(kind, cs) := cl.body;
      JoinFree(c, env, kind, cs);
      FreeWithin(EmitClause(c, env, cl).sql, Words, Openers);
    }
  }

  lemma {:induction false} WordsOpen()
    ensures Words <= Openers
  {
  }

  lemma {:induction false} CalmOrders(c: Compiler, cs: seq<Clause>)
    ensures Calm(Joined(OrderParts(c, cs), ",").sql)
  {
    CalmOrderParts(c, cs);
    OrderWords();
    CalmJoined(OrderParts(c, cs), ",");
  }

  lemma {:induction false} QuietOrders(c: Compiler, cs: seq<Clause>)
    ensures Quiet(OrdersOut(OrderParts(c, cs)).sql)
  {
    CalmOrders(c, cs);
    CalmIsQuiet(Joined(OrderParts(c, cs), ",").sql);
    OrderWords();
  }

  lemma {:induction false} OrderWords()
    ensures "ORDER BY" !in Words && "," !in Marks && "DESC" !in Marks && "NEWID()" !in Marks && "RANDOM()" !in Marks
  {
  }

  lemma {:induction false} CalmOrderParts(c: Compiler, cs: seq<Clause>)
    ensures AllCalm(OrderParts(c, cs))
  {
    if cs != [] {
      CalmOrder(c, cs[0]);
      hide OrderOut, Calm;
      CalmOrderParts(c, cs[1..]);
    }
  }

  lemma {:induction false} CalmOrder(c: Compiler, cl: Clause)
    ensures Calm(OrderOut(c, cl).sql)
  {
    OrderWords();
    hide ExpressionTokens, Marks;
  }
}
