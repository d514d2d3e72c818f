/** What a printed condition list means.  The printed tokens are parsed by the
    grammar of section 8.12 of SQL-92 (NOT binds closest, then AND, then OR) and
    evaluated in three-valued logic; the result is what the clause flags say. */
module Conditions {
  import opened Ast
  import opened Dialects
  import opened Emit
  import opened Placeholders
  import A = Alignment

  // ----- three-valued logic -------------------------------------------------------------

  datatype Truth = True | False | Unknown

  function Not3(a: Truth): Truth {
    match a case True => False case False => True case Unknown => Unknown
  }

  function And3(a: Truth, b: Truth): Truth {
    if a == False || b == False then False else if a == Unknown || b == Unknown then Unknown else True
  }

  function Or3(a: Truth, b: Truth): Truth { Not3(And3(Not3(a), Not3(b))) }

  function NotIf(not: bool, a: Truth): Truth { if not then Not3(a) else a }

  function AllOf(truths: seq<Truth>): Truth {
    if truths == [] then True else And3(truths[0], AllOf(truths[1..]))
  }

  function AnyOf(runs: seq<seq<Truth>>): Truth {
    if runs == [] then False else Or3(AllOf(runs[0]), AnyOf(runs[1..]))
  }

  // ----- the grammar ---------------------------------------------------------------------

  datatype Tree =
    | Predicate(run: seq<Token>)
    | Negation(tree: Tree)
    | Disjunction(terms: seq<Term>)

  datatype Term = Term(factors: seq<Tree>)

  datatype Parsed<+T> = Parsed(value: T, rest: seq<Token>)

  predicate Plain(t: Token) { !t.KAnd? && !t.KOr? && !t.KNot? && !t.LParen? && !t.RParen? }

  function PlainLength(ts: seq<Token>): (n: nat)
    ensures n <= |ts| && forall i :: 0 <= i < n ==> Plain(ts[i])
    ensures n < |ts| ==> !Plain(ts[n])
  {
    if ts == [] || !Plain(ts[0]) then 0 else 1 + PlainLength(ts[1..])
  }

  predicate HasBetween(ts: seq<Token>) { exists i :: 0 <= i < |ts| && ts[i].KBetween? }

  /** A predicate is a run of plain tokens; BETWEEN takes the AND after it. */
  function PredicateLength(ts: seq<Token>): (n: nat)
    ensures n <= |ts|
  {
    var n := PlainLength(ts);
    if n < |ts| && ts[n].KAnd? && HasBetween(ts[..n]) then n + 1 + PlainLength(ts[n + 1..]) else n
  }

  /** search condition ::= boolean term { OR boolean term } */
  function ParseCondition(ts: seq<Token>): (r: Option<Parsed<seq<Term>>>)
    ensures r.Some? ==> |r.value.rest| < |ts| && r.value.value != []
    decreases |ts|, 3
  {
    match ParseTerm(ts)
    case None => None
    case Some(Parsed(factors, rest)) =>
      if rest != [] && rest[0].KOr? then
        match ParseCondition(rest[1..])
        case None => None
        case Some(Parsed(terms, end)) => Some(Parsed([Term(factors)] + terms, end))
      else Some(Parsed([Term(factors)], rest))
  }

  /** boolean term ::= boolean factor { AND boolean factor } */
  function ParseTerm(ts: seq<Token>): (r: Option<Parsed<seq<Tree>>>)
    ensures r.Some? ==> |r.value.rest| < |ts|
    decreases |ts|, 2
  {
    match ParseFactor(ts)
    case None => None
    case Some(Parsed(factor, rest)) =>
      if rest != [] && rest[0].KAnd? then
        match ParseTerm(rest[1..])
        case None => None
        case Some(Parsed(factors, end)) => Some(Parsed([factor] + factors, end))
      else Some(Parsed([factor], rest))
  }

  /** boolean factor ::= [ NOT ] boolean primary */
  function ParseFactor(ts: seq<Token>): (r: Option<Parsed<Tree>>)
    ensures r.Some? ==> |r.value.rest| < |ts|
    decreases |ts|, 1
  {
    if ts != [] && ts[0].KNot? then
      match ParsePrimary(ts[1..])
      case None => None
      case Some(Parsed(tree, rest)) => Some(Parsed(Negation(tree), rest))
    else ParsePrimary(ts)
  }

  /** boolean primary ::= predicate | ( search condition ) */
  function ParsePrimary(ts: seq<Token>): (r: Option<Parsed<Tree>>)
    ensures r.Some? ==> |r.value.rest| < |ts|
    decreases |ts|, 0
  {
    if ts == [] then None
    else if ts[0].LParen? then
      match ParseCondition(ts[1..])
      case None => None
      case Some(Parsed(terms, rest)) =>
        if rest != [] && rest[0].RParen? then Some(Parsed(Disjunction(terms), rest[1..])) else None
    else
      var n := PredicateLength(ts);
      if n == 0 then None else Some(Parsed(Predicate(ts[..n]), ts[n..]))
  }

  // ----- meaning of a parse -----------------------------------------------------------------

  /** A reading gives every predicate, as printed, its truth value on some row. */
  type Reading = seq<Token> -> Truth

  function Eval(I: Reading, tree: Tree): Truth
    decreases tree
  {
    match tree
    case Predicate(run) => I(run)
    case Negation(t) => Not3(Eval(I, t))
    case Disjunction(terms) => EvalTerms(I, terms)
  }

  function EvalTerms(I: Reading, terms: seq<Term>): Truth
    decreases terms
  {
    if terms == [] then False else Or3(EvalFactors(I, terms[0].factors), EvalTerms(I, terms[1..]))
  }

  function EvalFactors(I: Reading, factors: seq<Tree>): Truth
    decreases factors
  {
    if factors == [] then True else And3(Eval(I, factors[0]), EvalFactors(I, factors[1..]))
  }

  predicate Opposite(I: Reading, a: seq<Token>, b: seq<Token>) { I(a) == Not3(I(b)) }

  /** SQL reads the keyword negations as negations, and the two printed stand-ins
      for an empty list as constants. */
  ghost predicate Lawful(I: Reading) {
    && (forall column :: Opposite(I, [Ident(column), Sym("IS NOT NULL")], [Ident(column), Sym("IS NULL")]))
    && (forall column, value ::
          Opposite(I, [Ident(column), Sym("!="), Sym(value)], [Ident(column), Sym("="), Sym(value)]))
    && (forall column, tail :: Opposite(I, [Ident(column), KBetween(true)] + tail, [Ident(column), KBetween(false)] + tail))
    && (forall column, tail :: Opposite(I, [Ident(column), Sym("NOT IN")] + tail, [Ident(column), Sym("IN")] + tail))
    && (forall tokens :: Opposite(I, [Sym("NOT EXISTS"), Inner(tokens)], [Sym("EXISTS"), Inner(tokens)]))
    && I([Sym("1 = 1")]) == True && I([Sym("1 = 0")]) == False
  }

  // ----- meaning of the clause flags -----------------------------------------------------------

  /** The conditions of a group that the compiler sees. */
  function Inside(c: Compiler, cl: Clause): (cs: seq<Clause>)
    requires cl.body.Condition? && cl.body.shape.Nested?
    ensures ClausesSize(cs) < ClauseSize(cl)
  {
    Components(GroupOf(cl).value.clauses, Where, c.Engine())
  }

  /** A condition that prints nothing: an empty raw expression, or a group with
      nothing to print at any depth. */
  predicate Omitted(c: Compiler, cl: Clause)
    decreases ClauseSize(cl), 0
  {
    if !cl.body.Condition? then true
    else if cl.body.shape.RawCondition? then ExpressionTokens(c, cl.body.shape.raw) == []
    else if cl.body.shape.Nested? then OmittedAll(c, Inside(c, cl))
    else false
  }

  predicate OmittedAll(c: Compiler, cs: seq<Clause>)
    decreases ClausesSize(cs), 1
  {
    cs == [] || (Omitted(c, cs[0]) && OmittedAll(c, cs[1..]))
  }

  /** A printed condition: its connective flag and what it says. */
  datatype Item = Item(or: bool, truth: Truth)

  /** The maximal runs of conditions joined by AND; the flag of the first
      condition plays no part. */
  function Runs(items: seq<Item>): (runs: seq<seq<Truth>>)
    ensures runs == [] <==> items == []
    ensures runs != [] ==> runs[0] != []
  {
    if items == [] then []
    else
      var more := Runs(items[1..]);
      if more == [] || items[1].or then [[items[0].truth]] + more
      else [[items[0].truth] + more[0]] + more[1..]
  }

  function Items(c: Compiler, env: Env, I: Reading, cs: seq<Clause>): seq<Item>
    decreases ClausesSize(cs), 1
  {
    if cs == [] then []
    else if Omitted(c, cs[0]) then Items(c, env, I, cs[1..])
    else [Item(cs[0].body.or, Says(c, env, I, cs[0]))] + Items(c, env, I, cs[1..])
  }

  /** A condition list holds when some run of it does. */
  function Meaning(c: Compiler, env: Env, I: Reading, cs: seq<Clause>): Truth
    decreases ClausesSize(cs), 2
  {
    AnyOf(Runs(Items(c, env, I, cs)))
  }

  /** Whether the flag of a condition is printed: SQLite loses that of a date part
      it does not map. */
  predicate KeptNot(c: Compiler, not: bool, shape: Shape) { not && !(shape.DatePart? && DropsNot(c, shape.part)) }

  /** A condition says what its unnegated form says, negated by its flag; a raw
      condition is taken as it stands. */
  function Says(c: Compiler, env: Env, I: Reading, cl: Clause): Truth
    requires cl.body.Condition?
    decreases ClauseSize(cl), 0
  {
    match cl.body.shape
    case Nested(_) => NotIf(cl.body.not, Meaning(c, env, I, Inside(c, cl)))
    case RawCondition(raw) => I(RawOut(c, raw).sql)
    case shape => NotIf(KeptNot(c, cl.body.not, shape), I(ShapeOut(c, env, false, shape, EmitShape(c, env, shape)).sql))
  }

  // ----- parsing what was printed ------------------------------------------------------------------

  /** What can follow a condition. */
  predicate Stops(rest: seq<Token>) { rest == [] || rest[0].KAnd? || rest[0].KOr? || rest[0].RParen? }

  lemma {:induction false} PlainEnds(p: seq<Token>, rest: seq<Token>)
    requires forall t <- p :: Plain(t)
    requires rest == [] || !Plain(rest[0])
    ensures PlainLength(p + rest) == |p|
  {
    var whole := p + rest;
    assert rest != [] ==> whole[|p|] == rest[0];
    assert forall i :: 0 <= i < |p| ==> whole[i] == p[i];
  }

  /** A run of plain tokens is read back as one predicate. */
  lemma {:induction false} PredicateParses(p: seq<Token>, rest: seq<Token>)
    requires p != [] && Stops(rest) && forall t <- p :: Plain(t) && !t.KBetween?
    ensures ParsePrimary(p + rest) == ParseFactor(p + rest) == Some(Parsed(Predicate(p), rest))
  {
    PlainEnds(p, rest);
    assert (p + rest)[0] == p[0] && (p + rest)[..|p|] == p && (p + rest)[|p|..] == rest;
  }

  lemma {:induction false} BetweenParses(column: Token, not: bool, a: seq<Token>, b: seq<Token>, rest: seq<Token>)
    requires Plain(column) && Stops(rest) && (forall t <- a :: Plain(t)) && forall t <- b :: Plain(t)
    ensures var p := [column, KBetween(not)] + (a + ([KAnd] + b));
      ParseFactor(p + rest) == Some(Parsed(Predicate(p), rest))
  {
    var head := [column, KBetween(not)] + a;
    var p := [column, KBetween(not)] + (a + ([KAnd] + b));
    var tail := [KAnd] + (b + rest);
    assert p + rest == head + tail;
    PlainEnds(head, tail);
    PlainEnds(b, rest);
    var ts := p + rest;
    assert ts[..|head|] == head && ts[1].KBetween?;
    assert ts[|head| + 1..] == b + rest;
    assert HasBetween(ts[..|head|]) by { assert ts[..|head|][1].KBetween?; }
    assert PredicateLength(ts) == |p|;
    assert ts[..|p|] == p && ts[|p|..] == rest;
  }

  /** A single condition without connectives. */
  lemma {:induction false} SingleParses(p: seq<Token>, rest: seq<Token>, tree: Tree)
    requires rest == [] || rest[0].RParen?
    requires ParseFactor(p + rest) == Some(Parsed(tree, rest))
    ensures ParseCondition(p + rest) == Some(Parsed([Term([tree])], rest))
  {
  }

  lemma {:induction false} ParenthesesParse(not: bool, p: seq<Token>, rest: seq<Token>, terms: seq<Term>)
    requires ParseCondition(p + ([RParen] + rest)) == Some(Parsed(terms, [RParen] + rest))
    ensures var printed := (if not then [KNot] else []) + [LParen] + p + [RParen];
      ParseFactor(printed + rest) == Some(Parsed(if not then Negation(Disjunction(terms)) else Disjunction(terms), rest))
  {
    var inside := p + ([RParen] + rest);
    assert ([LParen] + inside)[1..] == inside;
    assert ([RParen] + rest)[1..] == rest;
    assert ParsePrimary([LParen] + inside) == Some(Parsed(Disjunction(terms), rest));
    var printed := (if not then [KNot] else []) + [LParen] + p + [RParen];
    if not {
      assert printed + rest == [KNot] + ([LParen] + inside);
      assert (printed + rest)[1..] == [LParen] + inside;
    } else {
      assert printed + rest == [LParen] + inside;
    }
  }

  lemma {:induction false} NegatedParses(p: seq<Token>, rest: seq<Token>)
    requires p != [] && forall t <- p :: Plain(t) && !t.KBetween?
    ensures var printed := [KNot, LParen] + p + [RParen];
      ParseFactor(printed + rest) == Some(Parsed(Negation(Disjunction([Term([Predicate(p)])])), rest))
  {
    PredicateParses(p, [RParen] + rest);
    SingleParses(p, [RParen] + rest, Predicate(p));
    ParenthesesParse(true, p, rest, [Term([Predicate(p)])]);
    assert [KNot] + [LParen] == [KNot, LParen];
  }

  // ----- the shapes without groups -----------------------------------------------------------------------

  predicate Run(ts: seq<Token>) { ts != [] && forall t <- ts :: Plain(t) && !t.KBetween? }

  lemma {:induction false} ParameterPlain(env: Env, v: Value)
    ensures Run(Parameter(env, v).sql)
  {
  }

  lemma {:induction false} JoinedPlain(parts: seq<Out>)
    requires forall part <- parts :: Run(part.sql)
    ensures parts != [] ==> Run(Joined(parts, ",").sql)
  {
    if |parts| > 1 { JoinedPlain(parts[1..]); }
  }

  lemma {:induction false} ParameterizePlain(env: Env, values: seq<Value>)
    requires values != []
    ensures Run(Parameterize(env, values).sql)
  {
    var parts := ParameterParts(env, values);
    forall part | part in parts ensures Run(part.sql) {
      var i :| 0 <= i < |parts| && parts[i] == part;
      ParameterPlain(env, values[i]);
    }
    JoinedPlain(parts);
  }

  lemma {:induction false} OperatorPlain(c: Compiler, op: string)
    ensures Run([OperatorToken(c, op)])
  {
  }

  lemma {:induction false} DatePlain(c: Compiler, env: Env, part: string, column: string, op: string, v: Value)
    ensures Run(DateOut(c, env, part, column, op, v).sql)
  {
    ParameterPlain(env, v);
    hide DateFrame, Parameter, OperatorToken;
    OperatorPlain(c, op);
  }

  lemma {:induction false} LikePlain(c: Compiler, column: string, pattern: string, text: string, caseSensitive: bool, escape: string)
    ensures Run(LikeOut(c, column, pattern, text, caseSensitive, escape).sql)
  {
    hide Wildcards, OperatorToken;
    OperatorPlain(c, if caseSensitive then "like" else "ilike");
    OperatorPlain(c, "like");
  }

  /** A comparison, negated as a whole by parentheses. */
  lemma {:induction false} WholeParses(I: Reading, not: bool, o: Out, rest: seq<Token>)
    requires Run(o.sql) && Stops(rest)
    ensures var p := ParseFactor(Negated(not, o).sql + rest);
      p.Some? && p.value.rest == rest && Eval(I, p.value.value) == NotIf(not, I(o.sql))
  {
    if not {
      NegatedParses(o.sql, rest);
      SingleTruth(I, o.sql);
    } else {
      PredicateParses(o.sql, rest);
    }
  }

  lemma {:induction false} SingleTruth(I: Reading, run: seq<Token>)
    ensures Eval(I, Disjunction([Term([Predicate(run)])])) == I(run)
  {
    var factors := [Predicate(run)];
    assert factors[1..] == [];
    assert EvalFactors(I, factors) == I(run);
    var terms := [Term(factors)];
    assert terms[1..] == [] && EvalTerms(I, terms[1..]) == False;
    assert EvalTerms(I, terms) == Or3(EvalFactors(I, terms[0].factors), EvalTerms(I, terms[1..]));
  }

  /** A predicate whose negation is another keyword. */
  lemma {:induction false} KeywordParses(I: Reading, not: bool, printed: seq<Token>, positive: seq<Token>, rest: seq<Token>)
    requires Run(printed) && Stops(rest)
    requires if not then Opposite(I, printed, positive) else printed == positive
    ensures var p := ParseFactor(printed + rest);
      p.Some? && p.value.rest == rest && Eval(I, p.value.value) == NotIf(not, I(positive))
  {
    PredicateParses(printed, rest);
  }

  ghost predicate Reads(I: Reading, printed: seq<Token>, rest: seq<Token>, truth: Truth) {
    var p := ParseFactor(printed + rest);
    printed != [] && p.Some? && p.value.rest == rest && Eval(I, p.value.value) == truth
  }

  /** Every shape without a group is read back as its flag says. */
  lemma {:induction false} ShapeReads(c: Compiler, env: Env, I: Reading, not: bool, shape: Shape, inner: Out, rest: seq<Token>)
    requires Lawful(I) && Stops(rest)
    requires !shape.Nested? && !shape.RawCondition? && !(shape.SubQuery? && not)
    ensures Reads(I, ShapeOut(c, env, not, shape, inner).sql, rest, NotIf(KeptNot(c, not, shape), I(ShapeOut(c, env, false, shape, inner).sql)))
  {
    hide ParseFactor, Eval, Parameter, LikeOut, DateOut, OperatorToken, Lawful, Parameterize, HasBetween;
    match shape
    case Basic(column, op, value) => BasicReads(c, env, I, not, shape, inner, rest);
    case IsNull(column) => KeywordReads(c, env, I, not, shape, inner, rest);
    case IsBool(column, truth) => KeywordReads(c, env, I, not, shape, inner, rest);
    case Exists(_) => KeywordReads(c, env, I, not, shape, inner, rest);
    case InQuery(column, _) => KeywordReads(c, env, I, not, shape, inner, rest);
    case TwoColumns(first, op, second) => TwoColumnsRead(c, I, not, first, op, second, rest);
    case Between(column, lower, higher) => BetweenReads(c, env, I, not, column, lower, higher, rest);
    case In(column, values) => InReads(c, env, I, not, column, values, inner, rest);
    case SubQuery(_, op, value) => SubQueryReads(c, env, I, shape, inner, rest);
    case Like(column, pattern, text, caseSensitive, escape) =>
      LikePlain(c, column, pattern, text, caseSensitive, escape);
      WholeParses(I, not, LikeOut(c, column, pattern, text, caseSensitive, escape), rest);
    case DatePart(part, column, op, value) =>
      DatePlain(c, env, part, column, op, value);
      WholeParses(I, KeptNot(c, not, shape), DateOut(c, env, part, column, op, value), rest);
  }

  lemma {:induction false} BasicReads(c: Compiler, env: Env, I: Reading, not: bool, shape: Shape, inner: Out, rest: seq<Token>)
    requires shape.Basic? && Stops(rest)
    ensures Reads(I, ShapeOut(c, env, not, shape, inner).sql, rest, NotIf(not, I(ShapeOut(c, env, false, shape, inner).sql)))
  {
    ParameterPlain(env, shape.value);
    WholeParses(I, not, Cat(Text([Ident(shape.column), OperatorToken(c, shape.operator)]), Parameter(env, shape.value)), rest);
    hide ParseFactor, Eval, Parameter;
  }

  lemma {:induction false} KeywordReads(c: Compiler, env: Env, I: Reading, not: bool, shape: Shape, inner: Out, rest: seq<Token>)
    requires shape.IsNull? || shape.IsBool? || shape.Exists? || shape.InQuery?
    requires Lawful(I) && Stops(rest)
    ensures Reads(I, ShapeOut(c, env, not, shape, inner).sql, rest, NotIf(not, I(ShapeOut(c, env, false, shape, inner).sql)))
  {
    hide ParseFactor, Eval;
    var printed, positive := ShapeOut(c, env, not, shape, inner).sql, ShapeOut(c, env, false, shape, inner).sql;
    if not {
      match shape
      case IsNull(column) => assert Opposite(I, [Ident(column), Sym("IS NOT NULL")], [Ident(column), Sym("IS NULL")]);
      case IsBool(column, truth) =>
        var value := c.BoolLiteral(truth);
        assert Opposite(I, [Ident(column), Sym("!="), Sym(value)], [Ident(column), Sym("="), Sym(value)]);
      case Exists(_) => assert Opposite(I, [Sym("NOT EXISTS"), Inner(inner.sql)], [Sym("EXISTS"), Inner(inner.sql)]);
      case InQuery(column, _) =>
        var tail := [Inner(inner.sql)];
        assert Opposite(I, [Ident(column), Sym("NOT IN")] + tail, [Ident(column), Sym("IN")] + tail);
        assert printed == [Ident(column), Sym("NOT IN")] + tail && positive == [Ident(column), Sym("IN")] + tail;
    }
    KeywordParses(I, not, printed, positive, rest);
  }

  lemma {:induction false} TwoColumnsRead(c: Compiler, I: Reading, not: bool, first: string, op: string, second: string, rest: seq<Token>)
    requires Stops(rest)
    ensures var run := [Ident(first), OperatorToken(c, op), Ident(second)];
      Reads(I, (if not then [KNot] else []) + run, rest, NotIf(not, I([] + run)))
  {
    var run := [Ident(first), OperatorToken(c, op), Ident(second)];
    PredicateParses(run, rest);
    var printed := (if not then [KNot] else []) + run;
    assert [] + run == run;
    if not {
      assert printed + rest == [KNot] + (run + rest);
      assert (printed + rest)[1..] == run + rest;
    }
  }

  lemma {:induction false} BetweenReads(c: Compiler, env: Env, I: Reading, not: bool, column: string, lower: Value,
                                        higher: Value, rest: seq<Token>)
    requires Lawful(I) && Stops(rest)
    ensures var shape := Between(column, lower, higher);
      Reads(I, ShapeOut(c, env, not, shape, Nothing).sql, rest, NotIf(not, I(ShapeOut(c, env, false, shape, Nothing).sql)))
  {
    var a, b := Parameter(env, lower).sql, Parameter(env, higher).sql;
    ParameterPlain(env, lower);
    ParameterPlain(env, higher);
    hide Parameter, ParseFactor, Reads;
    BetweenStep(I, not, column, a, b, rest);
  }

  lemma {:induction false} BetweenStep(I: Reading, not: bool, column: string, a: seq<Token>, b: seq<Token>, rest: seq<Token>)
    requires Lawful(I) && Stops(rest) && Run(a) && Run(b)
    ensures Reads(I, [Ident(column), KBetween(not)] + (a + ([KAnd] + b)), rest,
                  NotIf(not, I([Ident(column), KBetween(false)] + (a + ([KAnd] + b)))))
  {
    var tail := a + ([KAnd] + b);
    BetweenParses(Ident(column), not, a, b, rest);
    hide ParseFactor;
    if not { assert Opposite(I, [Ident(column), KBetween(true)] + tail, [Ident(column), KBetween(false)] + tail); }
  }

  lemma {:induction false} InReads(c: Compiler, env: Env, I: Reading, not: bool, column: string, values: seq<Value>, inner: Out, rest: seq<Token>)
    requires Lawful(I) && Stops(rest)
    ensures var shape := In(column, values);
      Reads(I, ShapeOut(c, env, not, shape, inner).sql, rest, NotIf(not, I(ShapeOut(c, env, false, shape, inner).sql)))
  {
    hide ParseFactor, Eval, Parameterize;
    var shape := In(column, values);
    var printed, positive := ShapeOut(c, env, not, shape, inner).sql, ShapeOut(c, env, false, shape, inner).sql;
    if values != [] {
      var tail := [Sym("(")] + (Parameterize(env, values).sql + [Sym(")")]);
      InPrints(c, env, true, column, values, inner);
      InPrints(c, env, false, column, values, inner);
      hide ShapeOut, Run;
      if not { assert Opposite(I, [Ident(column), Sym("NOT IN")] + tail, [Ident(column), Sym("IN")] + tail); }
      KeywordParses(I, not, printed, positive, rest);
    } else {
      KeywordParses(I, not, printed, positive, rest);
    }
  }

  lemma {:induction false} InPrints(c: Compiler, env: Env, not: bool, column: string, values: seq<Value>, inner: Out)
    requires values != []
    ensures var o := ShapeOut(c, env, not, In(column, values), inner);
      && Run(o.sql)
      && o.sql == [Ident(column), Sym(if not then "NOT IN" else "IN")] + ([Sym("(")] + (Parameterize(env, values).sql + [Sym(")")]))
  {
    hide Parameterize;
    ParameterizePlain(env, values);
    var head := [Ident(column), Sym(if not then "NOT IN" else "IN")];
    assert [Ident(column), Sym(if not then "NOT IN" else "IN"), Sym("(")] == head + [Sym("(")];
  }

  lemma {:induction false} SubQueryReads(c: Compiler, env: Env, I: Reading, shape: Shape, inner: Out, rest: seq<Token>)
    requires shape.SubQuery? && Stops(rest)
    ensures var run := ShapeOut(c, env, false, shape, inner).sql; Reads(I, run, rest, I(run))
  {
    ParameterPlain(env, shape.value);
    var run := ShapeOut(c, env, false, shape, inner).sql;
    hide Parameter;
    PredicateParses(run, rest);
  }

  // ----- condition lists -----------------------------------------------------------------------------------

  /** Lists that the builder fills with conditions. */
  predicate AreConditions(cs: seq<Clause>) { Built(cs) && forall cl <- cs :: cl.body.Condition? }

  lemma {:induction false} SectionConditions(c: Compiler, cs: seq<Clause>, of: Component)
    requires Built(cs) && (of == Where || of == Having)
    ensures AreConditions(Components(cs, of, c.Engine()))
  {
    var part := Components(cs, of, c.Engine());
    A.BuiltSubset(cs, part);
    forall cl | cl in part ensures cl.body.Condition? {
      var i :| 0 <= i < |cs| && cs[i] == cl;
      assert BuiltClause(cs[i]);
    }
  }

  lemma {:induction false} InsideConditions(c: Compiler, cl: Clause)
    requires BuiltClause(cl) && cl.body.Condition? && cl.body.shape.Nested?
    ensures AreConditions(Inside(c, cl))
  {
    SectionConditions(c, GroupOf(cl).value.clauses, Where);
  }

  lemma {:induction false} TailConditions(cs: seq<Clause>)
    requires AreConditions(cs) && cs != []
    ensures AreConditions(cs[1..]) && BuiltClause(cs[0])
  {
    A.BuiltSubset(cs, cs[1..]);
  }

  /** What a group prints, spelled out. */
  lemma {:induction false} NestedPrints(c: Compiler, env: Env, cl: Clause)
    requires cl.body.Condition? && cl.body.shape.Nested?
    ensures var list := Connect(Inside(c, cl), EmitClauses(c, env, Inside(c, cl)), false).sql;
      EmitClause(c, env, cl).sql ==
        if list == [] then [] else (if cl.body.not then [KNot] else []) + [LParen] + list + [RParen]
  {
    var g := GroupOf(cl).value;
    assert EmitShape(c, env, cl.body.shape) == EmitGroup(c, env, g);
  }

  lemma {:induction false} FlatPrints(c: Compiler, env: Env, cl: Clause)
    requires cl.body.Condition? && !cl.body.shape.Nested?
    ensures EmitClause(c, env, cl) == ShapeOut(c, env, cl.body.not, cl.body.shape, EmitShape(c, env, cl.body.shape))
  {
  }

  lemma {:induction false} FlatNeverEmpty(c: Compiler, env: Env, not: bool, shape: Shape, inner: Out)
    requires !shape.Nested? && !shape.RawCondition?
    ensures ShapeOut(c, env, not, shape, inner).sql != []
  {
    hide Parameter, Parameterize, OperatorToken;
    match shape
    case Like(column, pattern, text, caseSensitive, escape) =>
      LikePlain(c, column, pattern, text, caseSensitive, escape);
    case DatePart(part, column, op, value) => DatePlain(c, env, part, column, op, value);
    case _ =>
  }

  /** A condition prints nothing exactly when it is omitted. */
  lemma {:induction false} OmittedPrintsNothing(c: Compiler, env: Env, cl: Clause)
    requires cl.body.Condition? && BuiltClause(cl)
    ensures EmitClause(c, env, cl).sql == [] <==> Omitted(c, cl)
    decreases ClauseSize(cl), 0
  {
    if cl.body.shape.Nested? {
      InsideConditions(c, cl);
      NestedPrints(c, env, cl);
      ListPrintsNothing(c, env, Inside(c, cl));
    } else {
      FlatPrints(c, env, cl);
      if !cl.body.shape.RawCondition? {
        FlatNeverEmpty(c, env, cl.body.not, cl.body.shape, EmitShape(c, env, cl.body.shape));
      }
    }
  }

  lemma {:induction false} ListPrintsNothing(c: Compiler, env: Env, cs: seq<Clause>)
    requires AreConditions(cs)
    ensures Connect(cs, EmitClauses(c, env, cs), false).sql == [] <==> OmittedAll(c, cs)
    ensures forall i :: 0 <= i < |cs| ==> (EmitClauses(c, env, cs)[i].sql == [] <==> Omitted(c, cs[i]))
    decreases ClausesSize(cs), 1
  {
    hide EmitClause, Omitted;
    if cs != [] {
      TailConditions(cs);
      OmittedPrintsNothing(c, env, cs[0]);
      ListPrintsNothing(c, env, cs[1..]);
    }
  }

  /** What a list prints after a condition before it starts with the connective of
      its own first printed condition. */
  lemma {:induction false} LaterStartsWithConnective(c: Compiler, env: Env, I: Reading, cs: seq<Clause>, parts: seq<Out>)
    requires |cs| == |parts| && forall cl <- cs :: cl.body.Condition?
    requires forall i :: 0 <= i < |cs| ==> (parts[i].sql == [] <==> Omitted(c, cs[i]))
    ensures var later, alone, items := Connect(cs, parts, true).sql, Connect(cs, parts, false).sql, Items(c, env, I, cs);
      && (alone == [] <==> items == [])
      && later == (if items == [] then [] else [if items[0].or then KOr else KAnd] + alone)
  {
    hide Omitted, Says, Connect;
    ConnectStep(cs, parts, true);
    ConnectStep(cs, parts, false);
    if cs != [] { LaterStartsWithConnective(c, env, I, cs[1..], parts[1..]); }
  }

  lemma {:induction false} ConnectStep(cs: seq<Clause>, parts: seq<Out>, started: bool)
    requires |cs| == |parts|
    ensures var sql := Connect(cs, parts, started).sql;
      if cs == [] then sql == []
      else if parts[0].sql == [] then sql == Connect(cs[1..], parts[1..], started).sql
      else
        var printed := parts[0].sql + Connect(cs[1..], parts[1..], true).sql;
        sql == if started then [Connective(cs[0])] + printed else printed
  {
    if cs != [] {
      var later := Connect(cs[1..], parts[1..], true).sql;
      if parts[0].sql == [] {
        assert [] + Connect(cs[1..], parts[1..], started).sql == Connect(cs[1..], parts[1..], started).sql;
      } else {
        assert ([Connective(cs[0])] + parts[0].sql) + later == [Connective(cs[0])] + (parts[0].sql + later);
      }
    }
  }

  /** A parse says run by run what the conditions say. */
  ghost predicate Matches(I: Reading, terms: seq<Term>, runs: seq<seq<Truth>>) {
    |terms| == |runs| && forall i :: 0 <= i < |runs| ==> EvalFactors(I, terms[i].factors) == AllOf(runs[i])
  }

  lemma {:induction false} MatchesEval(I: Reading, terms: seq<Term>, runs: seq<seq<Truth>>)
    requires Matches(I, terms, runs)
    ensures EvalTerms(I, terms) == AnyOf(runs) && |terms| == |runs|
  {
    if runs != [] {
      assert forall i :: 0 <= i < |runs[1..]| ==> runs[1..][i] == runs[i + 1] && terms[1..][i] == terms[i + 1];
      MatchesEval(I, terms[1..], runs[1..]);
    }
  }

  /** A condition followed by AND and a list joins the first term of the list. */
  lemma {:induction false} AndParses(p: seq<Token>, tree: Tree, list: seq<Token>, terms: seq<Term>, rest: seq<Token>)
    requires ParseFactor(p + ([KAnd] + list)) == Some(Parsed(tree, [KAnd] + list))
    requires ParseCondition(list) == Some(Parsed(terms, rest))
    ensures terms != []
    ensures ParseCondition(p + ([KAnd] + list)) == Some(Parsed([Term([tree] + terms[0].factors)] + terms[1..], rest))
  {
    var ts := p + ([KAnd] + list);
    assert ([KAnd] + list)[1..] == list;
    var first := ParseTerm(list).value;
    assert ParseTerm(ts) == Some(Parsed([tree] + first.value, first.rest));
    if first.rest != [] && first.rest[0].KOr? {
      var more := ParseCondition(first.rest[1..]).value.value;
      assert terms == [Term(first.value)] + more && terms[1..] == more;
    } else {
      var whole := [Term([tree] + first.value)];
      assert terms == [Term(first.value)] && terms[1..] == [] && whole + [] == whole;
    }
  }

  /** A condition followed by OR and a list starts a term of its own. */
  lemma {:induction false} OrParses(p: seq<Token>, tree: Tree, list: seq<Token>, terms: seq<Term>, rest: seq<Token>)
    requires ParseFactor(p + ([KOr] + list)) == Some(Parsed(tree, [KOr] + list))
    requires ParseCondition(list) == Some(Parsed(terms, rest))
    ensures ParseCondition(p + ([KOr] + list)) == Some(Parsed([Term([tree])] + terms, rest))
  {
    assert ([KOr] + list)[1..] == list;
    assert ParseTerm(p + ([KOr] + list)) == Some(Parsed([tree], [KOr] + list));
  }

  /** A printed list, with what may follow it, is read back as its runs. */
  ghost predicate ListReads(c: Compiler, env: Env, I: Reading, cs: seq<Clause>, rest: seq<Token>) {
    var printed := Connect(cs, EmitClauses(c, env, cs), false).sql;
    var items := Items(c, env, I, cs);
    if OmittedAll(c, cs) then printed == [] && items == []
    else
      var p := ParseCondition(printed + rest);
      && printed != [] && items != []
      && p.Some? && p.value.rest == rest && Matches(I, p.value.value, Runs(items))
  }

  lemma {:induction false} ListParses(c: Compiler, env: Env, I: Reading, cs: seq<Clause>, rest: seq<Token>)
    requires Lawful(I) && AreConditions(cs)
    requires rest == [] || rest[0].RParen?
    ensures ListReads(c, env, I, cs, rest)
    decreases ClausesSize(cs), 1
  {
    if cs != [] {
      TailConditions(cs);
      ListParses(c, env, I, cs[1..], rest);
      ListPrintsNothing(c, env, cs);
      ListPrintsNothing(c, env, cs[1..]);
      LaterStartsWithConnective(c, env, I, cs[1..], EmitClauses(c, env, cs[1..]));
      if Omitted(c, cs[0]) {
        SkipReads(c, env, I, cs, rest);
      } else {
        var items := Items(c, env, I, cs[1..]);
        var alone := Connect(cs[1..], EmitClauses(c, env, cs[1..]), false).sql;
        var after := (if items == [] then [] else [if items[0].or then KOr else KAnd] + alone) + rest;
        ClauseParses(c, env, I, cs[0], after);
        ConsReads(c, env, I, cs, rest);
      }
    }
  }

  lemma {:induction false} SkipReads(c: Compiler, env: Env, I: Reading, cs: seq<Clause>, rest: seq<Token>)
    requires cs != [] && Omitted(c, cs[0]) && EmitClause(c, env, cs[0]).sql == []
    requires ListReads(c, env, I, cs[1..], rest)
    ensures ListReads(c, env, I, cs, rest)
  {
    hide ParseCondition, Matches, Omitted, EmitClause, Runs;
    var tail := Connect(cs[1..], EmitClauses(c, env, cs[1..]), false).sql;
    assert [] + tail == tail;
  }

  function Later(items: seq<Item>, alone: seq<Token>): seq<Token> {
    if items == [] then [] else [if items[0].or then KOr else KAnd] + alone
  }

  lemma {:induction false} ConsReads(c: Compiler, env: Env, I: Reading, cs: seq<Clause>, rest: seq<Token>)
    requires cs != [] && cs[0].body.Condition? && !Omitted(c, cs[0])
    requires rest == [] || rest[0].RParen?
    requires ListReads(c, env, I, cs[1..], rest)
    requires var items := Items(c, env, I, cs[1..]);
      var parts := EmitClauses(c, env, cs[1..]);
      var later := Later(items, Connect(cs[1..], parts, false).sql);
      && Connect(cs[1..], parts, true).sql == later
      && (items == [] <==> OmittedAll(c, cs[1..]))
      && Reads(I, EmitClause(c, env, cs[0]).sql, later + rest, Says(c, env, I, cs[0]))
    ensures ListReads(c, env, I, cs, rest)
  {
    hide ParseCondition, ParseFactor, Omitted, EmitClause, Says, Later, Matches, Runs;
    var p := EmitClause(c, env, cs[0]).sql;
    var item := Item(cs[0].body.or, Says(c, env, I, cs[0]));
    ConsStep(I, p, item, Items(c, env, I, cs[1..]), Connect(cs[1..], EmitClauses(c, env, cs[1..]), false).sql, rest);
  }

  /** A printed condition in front of a printed list. */
  lemma {:induction false} ConsStep(I: Reading, p: seq<Token>, item: Item, items: seq<Item>, alone: seq<Token>, rest: seq<Token>)
    requires rest == [] || rest[0].RParen?
    requires Reads(I, p, Later(items, alone) + rest, item.truth)
    requires items != [] ==>
      var q := ParseCondition(alone + rest); q.Some? && q.value.rest == rest && Matches(I, q.value.value, Runs(items))
    ensures var q := ParseCondition((p + Later(items, alone)) + rest);
      q.Some? && q.value.rest == rest && Matches(I, q.value.value, Runs([item] + items))
  {
    var later := Later(items, alone);
    var tree := ParseFactor(p + (later + rest)).value.value;
    assert (p + later) + rest == p + (later + rest);
    hide ParseCondition, ParseFactor, Matches, Runs;
    if items == [] {
      assert later + rest == rest;
      SingleParses(p, rest, tree);
      NoneMatches(I);
      ConsMatches(I, tree, item, [], []);
      assert [Term([tree])] + [] == [Term([tree])];
    } else {
      var terms := ParseCondition(alone + rest).value.value;
      assert later + rest == [if items[0].or then KOr else KAnd] + (alone + rest);
      if items[0].or {
        OrParses(p, tree, alone + rest, terms, rest);
      } else {
        AndParses(p, tree, alone + rest, terms, rest);
      }
      ConsMatches(I, tree, item, terms, items);
    }
  }

  lemma {:induction false} NoneMatches(I: Reading)
    ensures Matches(I, [], Runs([]))
  {
  }

  lemma {:induction false} ConsMatches(I: Reading, tree: Tree, item: Item, terms: seq<Term>, items: seq<Item>)
    requires Matches(I, terms, Runs(items)) && Eval(I, tree) == item.truth
    ensures Matches(I, if items == [] || items[0].or then [Term([tree])] + terms
                       else [Term([tree] + terms[0].factors)] + terms[1..],
                    Runs([item] + items))
  {
    RunsCons(item, items);
    hide Runs;
    if items == [] || items[0].or {
      ConsFactors(I, tree, item.truth, [], []);
      assert [tree] + [] == [tree] && [item.truth] + [] == [item.truth];
      ConsRuns(I, Term([tree]), [item.truth], terms, Runs(items));
    } else {
      var runs := Runs(items);
      ConsFactors(I, tree, item.truth, terms[0].factors, runs[0]);
      TailMatches(I, terms, runs);
      ConsRuns(I, Term([tree] + terms[0].factors), [item.truth] + runs[0], terms[1..], runs[1..]);
    }
  }

  lemma {:induction false} RunsCons(item: Item, items: seq<Item>)
    ensures Runs([item] + items) ==
      if items == [] || items[0].or then [[item.truth]] + Runs(items)
      else [[item.truth] + Runs(items)[0]] + Runs(items)[1..]
  {
    assert ([item] + items)[1..] == items;
  }

  lemma {:induction false} ConsFactors(I: Reading, tree: Tree, truth: Truth, factors: seq<Tree>, run: seq<Truth>)
    requires Eval(I, tree) == truth && EvalFactors(I, factors) == AllOf(run)
    ensures EvalFactors(I, [tree] + factors) == AllOf([truth] + run)
  {
    assert ([tree] + factors)[1..] == factors && ([truth] + run)[1..] == run;
  }

  lemma {:induction false} ConsRuns(I: Reading, term: Term, run: seq<Truth>, terms: seq<Term>, runs: seq<seq<Truth>>)
    requires EvalFactors(I, term.factors) == AllOf(run) && Matches(I, terms, runs)
    ensures Matches(I, [term] + terms, [run] + runs)
  {
    hide EvalFactors, AllOf;
  }

  lemma {:induction false} TailMatches(I: Reading, terms: seq<Term>, runs: seq<seq<Truth>>)
    requires Matches(I, terms, runs) && runs != []
    ensures Matches(I, terms[1..], runs[1..])
  {
    hide EvalFactors, AllOf;
  }

  lemma {:induction false} ClauseParses(c: Compiler, env: Env, I: Reading, cl: Clause, rest: seq<Token>)
    requires Lawful(I) && cl.body.Condition? && BuiltClause(cl) && !Omitted(c, cl) && Stops(rest)
    ensures Reads(I, EmitClause(c, env, cl).sql, rest, Says(c, env, I, cl))
    decreases ClauseSize(cl), 0
  {
    var shape := cl.body.shape;
    if shape.Nested? {
      InsideConditions(c, cl);
      NestedPrints(c, env, cl);
      ListParses(c, env, I, Inside(c, cl), [RParen] + rest);
      GroupReads(c, env, I, cl, rest);
    } else {
      FlatPrints(c, env, cl);
      if shape.RawCondition? {
        PredicateParses(RawOut(c, shape.raw).sql, rest);
      } else {
        ShapeReads(c, env, I, cl.body.not, shape, EmitShape(c, env, shape), rest);
      }
    }
  }

  lemma {:induction false} GroupReads(c: Compiler, env: Env, I: Reading, cl: Clause, rest: seq<Token>)
    requires cl.body.Condition? && cl.body.shape.Nested? && !Omitted(c, cl)
    requires ListReads(c, env, I, Inside(c, cl), [RParen] + rest)
    requires var list := Connect(Inside(c, cl), EmitClauses(c, env, Inside(c, cl)), false).sql;
      EmitClause(c, env, cl).sql ==
        if list == [] then [] else (if cl.body.not then [KNot] else []) + [LParen] + list + [RParen]
    ensures Reads(I, EmitClause(c, env, cl).sql, rest, Says(c, env, I, cl))
  {
    hide ParseCondition, EmitClause, Connect, Items, EmitClauses, Inside, Runs, AnyOf, Reads, Matches;
    GroupStep(I, cl.body.not, Connect(Inside(c, cl), EmitClauses(c, env, Inside(c, cl)), false).sql,
              Items(c, env, I, Inside(c, cl)), rest);
  }

  lemma {:induction false} GroupStep(I: Reading, not: bool, list: seq<Token>, items: seq<Item>, rest: seq<Token>)
    requires list != []
    requires var p := ParseCondition(list + ([RParen] + rest));
      p.Some? && p.value.rest == [RParen] + rest && Matches(I, p.value.value, Runs(items))
    ensures Reads(I, (if not then [KNot] else []) + [LParen] + list + [RParen], rest, NotIf(not, AnyOf(Runs(items))))
  {
    var terms := ParseCondition(list + ([RParen] + rest)).value.value;
    hide ParseCondition, ParseFactor, AnyOf, Runs, Matches;
    ParenthesesParse(not, list, rest, terms);
    MatchesEval(I, terms, Runs(items));
    assert Eval(I, Disjunction(terms)) == AnyOf(Runs(items));
    assert Eval(I, Negation(Disjunction(terms))) == Not3(AnyOf(Runs(items)));
    var printed := (if not then [KNot] else []) + [LParen] + list + [RParen];
    assert printed != [] by { assert |printed| >= 2; }
  }

  // ----- the main results -------------------------------------------------------------------------------------

  /** A WHERE, HAVING or ON section, read by the grammar to its end, has one term
      for every AND-run of the clause list and is true, false or unknown on every
      row as the printed flags say, whatever the predicates in it mean. */
  lemma {:induction false} SectionMeans(c: Compiler, env: Env, I: Reading, cs: seq<Clause>, of: Component, keyword: string)
    requires Lawful(I) && Built(cs) && (of == Where || of == Having)
    ensures var list := Components(cs, of, c.Engine());
      var sql := ConditionSection(keyword, list, EmitClauses(c, env, list)).sql;
      if OmittedAll(c, list) then sql == []
      else
        sql != [] && var p := ParseCondition(sql[1..]);
        && sql[0] == Sym(keyword)
        && p.Some? && p.value.rest == []
        && |p.value.value| == |Runs(Items(c, env, I, list))|
        && EvalTerms(I, p.value.value) == Meaning(c, env, I, list)
  {
    var list := Components(cs, of, c.Engine());
    var printed := Connect(list, EmitClauses(c, env, list), false).sql;
    SectionConditions(c, cs, of);
    ListParses(c, env, I, list, []);
    hide ParseCondition, Connect, EmitClauses, Items, Runs, Components, Matches;
    assert printed + [] == printed;
    if !OmittedAll(c, list) {
      var terms := ParseCondition(printed).value.value;
      MatchesEval(I, terms, Runs(Items(c, env, I, list)));
      assert ([Sym(keyword)] + printed)[1..] == printed;
    }
  }

  /** SQLite prints a negated comparison of an unmapped date part without its NOT:
      what is read back agrees with the flag only where the comparison is unknown. */
  lemma {:induction false} DroppedNotAgreesOnUnknown(c: Compiler, env: Env, I: Reading, cl: Clause)
    requires cl.body.Condition? && cl.body.shape.DatePart? && cl.body.not && DropsNot(c, cl.body.shape.part)
    ensures var p := ParseCondition(EmitClause(c, env, cl).sql);
      && p.Some? && p.value.rest == []
      && var flagged := NotIf(cl.body.not, I(ShapeOut(c, env, false, cl.body.shape, EmitShape(c, env, cl.body.shape)).sql));
      (EvalTerms(I, p.value.value) == flagged <==> flagged == Unknown)
  {
    var DatePart(part, column, op, value) := cl.body.shape;
    var run := DateOut(c, env, part, column, op, value).sql;
    DatePlain(c, env, part, column, op, value);
    PredicateParses(run, []);
    SingleParses(run, [], Predicate(run));
    assert run + [] == run;
    SingleTruth(I, run);
  }
}
