/** What a filter tree asks of a record, by the meaning of its operator codes on the
    data itself, against what the printed WHERE section says about that record. */
module FilterAnswers {
  import opened Ast
  import opened Dialects
  import opened Emit
  import opened Conditions
  import opened Filters
  import FM = FilterMeaning
  import S = Strings

  // ----- records -------------------------------------------------------------------------------

  /** How a database compares values: equality, order, and the text LIKE works on. */
  datatype Order = Order(equal: (Value, Value) -> bool, less: (Value, Value) -> bool, text: Value -> string)

  /** The columns of a record; an absent one is null. */
  type Record = map<string, Value>

  function Cell(row: Record, column: string): Option<Value> {
    if column in row && row[column] != Null then Some(row[column]) else None
  }

  function Holds(b: bool): Truth { if b then True else False }

  // ----- what the operator codes ask ---------------------------------------------------------------

  /** The truth of a rule on a record; None when its data is empty and the rule is
      skipped.  Comparisons with null are unknown. */
  function Asks(show: Data -> string, o: Order, row: Record, rule: Rule): Option<Truth>
    requires KnownOp(rule.op)
  {
    var cell := Cell(row, rule.field);
    if rule.op == "is" then Some(Holds(cell.None?))
    else if rule.op == "ns" then Some(Holds(cell.Some?))
    else if Skipped(rule.op, rule.data) then None
    else if cell.None? then Some(Unknown)
    else Some(AsksValue(show, o, cell.value, rule))
  }

  /** The same for a value that is not null. */
  function AsksValue(show: Data -> string, o: Order, x: Value, rule: Rule): Truth
    requires KnownOp(rule.op) && rule.op != "is" && rule.op != "ns"
  {
    if rule.op == "in" then Among(o, x, ValuesOf(rule.data))
    else if rule.op == "ni" then Not3(Among(o, x, ValuesOf(rule.data)))
    else if rule.op in Comparisons then
      var y := Compared(rule.data);
      if y == Null then Unknown
      else if rule.op == "eq" then Holds(o.equal(x, y))
      else if rule.op == "ne" then Holds(!o.equal(x, y))
      else if rule.op == "lt" then Holds(o.less(x, y))
      else if rule.op == "le" then Holds(o.less(x, y) || o.equal(x, y))
      else if rule.op == "gt" then Holds(o.less(y, x))
      else Holds(o.less(y, x) || o.equal(x, y))
    else
      var text, piece := o.text(x), show(rule.data);
      if rule.op == "bw" then Holds(Begins(text, piece))
      else if rule.op == "bn" then Holds(!Begins(text, piece))
      else if rule.op == "ew" then Holds(Ends(text, piece))
      else if rule.op == "en" then Holds(!Ends(text, piece))
      else if rule.op == "cn" then Holds(Contains(text, piece))
      else Holds(!Contains(text, piece))
  }

  /** Membership: true for an equal value, unknown when only a null could be equal. */
  function Among(o: Order, x: Value, values: seq<Value>): Truth {
    if exists v <- values :: v != Null && o.equal(x, v) then True
    else if Null in values then Unknown
    else False
  }

  /** The pattern language of LIKE: % for any text, _ for any character. */
  predicate Matches(text: string, pattern: string)
    decreases |pattern| + |text|
  {
    if pattern == "" then text == ""
    else if pattern[0] == '%' then Matches(text, pattern[1..]) || (text != "" && Matches(text[1..], pattern))
    else text != "" && (pattern[0] == '_' || pattern[0] == text[0]) && Matches(text[1..], pattern[1..])
  }

  /** The data is a pattern of its own: the program does not escape it. */
  predicate Begins(text: string, piece: string) { exists k :: 0 <= k <= |text| && Matches(text[..k], piece) }

  predicate Ends(text: string, piece: string) { exists k :: 0 <= k <= |text| && Matches(text[k..], piece) }

  predicate Contains(text: string, piece: string) {
    exists k :: 0 <= k <= |text| && Begins(text[k..], piece)
  }

  predicate Wildcard(ch: char) { ch == '%' || ch == '_' }

  predicate EndsPlainly(text: string, piece: string) { |piece| <= |text| && text[|text| - |piece|..] == piece }

  predicate ContainsPlainly(text: string, piece: string) { exists k :: 0 <= k <= |text| && piece <= text[k..] }

  /** The three are prefix, suffix and substring for every text exactly when the data
      has no wildcard. */
  lemma {:induction false} PlainPieces(piece: string)
    ensures (forall text: string :: Begins(text, piece) <==> piece <= text) <==> forall ch <- piece :: !Wildcard(ch)
    ensures (forall text: string :: Ends(text, piece) <==> EndsPlainly(text, piece)) <==> forall ch <- piece :: !Wildcard(ch)
    ensures (forall text: string :: Contains(text, piece) <==> ContainsPlainly(text, piece)) <==> forall ch <- piece :: !Wildcard(ch)
  {
    if forall ch <- piece :: !Wildcard(ch) {
      forall text: string
        ensures Begins(text, piece) <==> piece <= text
        ensures Ends(text, piece) <==> EndsPlainly(text, piece)
        ensures Contains(text, piece) <==> ContainsPlainly(text, piece)
      {
        WithoutWildcards(text, piece);
      }
    } else {
      WithWildcards(piece);
    }
  }

  lemma {:induction false} WithoutWildcards(text: string, piece: string)
    requires forall ch <- piece :: !Wildcard(ch)
    ensures Begins(text, piece) <==> piece <= text
    ensures Ends(text, piece) <==> EndsPlainly(text, piece)
    ensures Contains(text, piece) <==> ContainsPlainly(text, piece)
  {
    PlainBegins(text, piece);
    if Ends(text, piece) {
      var k :| 0 <= k <= |text| && Matches(text[k..], piece);
      PlainMatches(text[k..], piece);
    }
    if EndsPlainly(text, piece) {
      PlainMatches(text[|text| - |piece|..], piece);
      assert Matches(text[|text| - |piece|..], piece);
    }
    forall k | 0 <= k <= |text| ensures Begins(text[k..], piece) <==> piece <= text[k..] { PlainBegins(text[k..], piece); }
  }

  /** A text that a pattern matches: its wildcards replaced by a letter. */
  function Replaced(piece: string): (text: string)
    ensures |text| == |piece|
  {
    if piece == "" then "" else [if Wildcard(piece[0]) then 'x' else piece[0]] + Replaced(piece[1..])
  }

  lemma {:induction false} ReplacedMatches(piece: string)
    ensures Matches(Replaced(piece), piece)
    ensures (exists ch <- piece :: Wildcard(ch)) ==> Replaced(piece) != piece
  {
    if piece != "" {
      var text := Replaced(piece);
      ReplacedMatches(piece[1..]);
      assert text[1..] == Replaced(piece[1..]);
      if piece[0] == '%' {
        assert Matches(text[1..], piece[1..]);
        BeyondPercent(text[1..], piece);
      }
      assert piece == [piece[0]] + piece[1..];
    }
  }

  lemma {:induction false} BeyondPercent(text: string, pattern: string)
    requires pattern != "" && pattern[0] == '%' && Matches(text, pattern[1..])
    ensures Matches(text, pattern)
  {
  }

  /** With a wildcard some text of the same length is matched and differs. */
  lemma {:induction false} WithWildcards(piece: string)
    requires exists ch <- piece :: Wildcard(ch)
    ensures var text := Replaced(piece);
      && Begins(text, piece) && !(piece <= text)
      && Ends(text, piece) && !EndsPlainly(text, piece)
      && Contains(text, piece) && !ContainsPlainly(text, piece)
  {
    var text := Replaced(piece);
    ReplacedMatches(piece);
    assert text[..|text|] == text && text[0..] == text;
    assert Matches(text[..|text|], piece) && Matches(text[0..], piece);
    assert Begins(text[0..], piece);
    forall k | 0 <= k <= |text| ensures !(piece <= text[k..]) {
      assert k > 0 ==> |text[k..]| < |piece|;
    }
  }

  /** A rule that asks for texts containing "5%" is answered by "500". */
  lemma {:induction false} PercentIsWild()
    ensures Contains("500", "5%") && !ContainsPlainly("500", "5%")
  {
    var text, piece := "500", "5%";
    assert piece[1..] == "%" && text[0..] == text && text[..1] == "5" && text[..1][1..] == "" && "%"[1..] == "";
    assert Matches("", "%");
    assert Matches(text[..1], piece);
    assert Begins(text[0..], piece);
    forall k | 0 <= k <= |text| ensures !(piece <= text[k..]) {
      assert |text[k..]| >= 2 ==> text[k..][1] != piece[1];
    }
  }

  lemma {:induction false} PlainBegins(text: string, piece: string)
    requires forall ch <- piece :: !Wildcard(ch)
    ensures Begins(text, piece) <==> piece <= text
  {
    if Begins(text, piece) {
      var k :| 0 <= k <= |text| && Matches(text[..k], piece);
      PlainMatches(text[..k], piece);
    }
    if piece <= text {
      PlainMatches(text[..|piece|], piece);
      assert Matches(text[..|piece|], piece);
    }
  }

  lemma {:induction false} PlainMatches(text: string, piece: string)
    requires forall ch <- piece :: !Wildcard(ch)
    ensures Matches(text, piece) <==> text == piece
    decreases piece
  {
    if piece != "" && text != "" {
      assert piece[0] in piece && forall ch <- piece[1..] :: ch in piece;
      PlainMatches(text[1..], piece[1..]);
      assert text == [text[0]] + text[1..] && piece == [piece[0]] + piece[1..];
    } else if piece != "" {
      assert piece[0] in piece;
    }
  }

  // ----- how a record reads printed predicates --------------------------------------------------------

  /** The comparison operators of SQL. */
  function Compares(o: Order, op: string, cell: Option<Value>, v: Value): Truth {
    if cell.None? || v == Null then Unknown
    else if op == "=" then Holds(o.equal(cell.value, v))
    else if op == "!=" then Holds(!o.equal(cell.value, v))
    else if op == "<" then Holds(o.less(cell.value, v))
    else if op == "<=" then Holds(o.less(cell.value, v) || o.equal(cell.value, v))
    else if op == ">" then Holds(o.less(v, cell.value))
    else if op == ">=" then Holds(o.less(v, cell.value) || o.equal(cell.value, v))
    else if op == "like" && v.Str? then Holds(Matches(o.text(cell.value), v.s))
    else Unknown
  }

  /** IN is a disjunction of equalities. */
  function Member(o: Order, cell: Option<Value>, values: seq<Value>): Truth {
    if values == [] then False else Or3(Compares(o, "=", cell, values[0]), Member(o, cell, values[1..]))
  }

  predicate Bound(t: Token) { t.Hole? && t.slot.Filled? }

  /** A list of placeholders up to the closing parenthesis. */
  function ReadItems(ts: seq<Token>): Option<seq<Value>> {
    if |ts| < 2 || !Bound(ts[0]) then None
    else if |ts| == 2 && ts[1] == Sym(")") then Some([ts[0].slot.value])
    else if ts[1] == Sym(",") then
      match ReadItems(ts[2..]) case None => None case Some(rest) => Some([ts[0].slot.value] + rest)
    else None
  }

  function Listed(o: Order, cell: Option<Value>, ts: seq<Token>): Truth {
    if ts == [] || ts[0] != Sym("(") then Unknown
    else match ReadItems(ts[1..]) case None => Unknown case Some(values) => Member(o, cell, values)
  }

  /** A printed predicate on a record; predicates that no filter prints are unknown. */
  function Says(o: Order, row: Record, ts: seq<Token>): Truth {
    if |ts| == 1 then (if ts[0] == Sym("1 = 1") then True else if ts[0] == Sym("1 = 0") then False else Unknown)
    else if |ts| < 2 || !ts[0].Ident? || !ts[1].Sym? then Unknown
    else SaysWord(o, Cell(row, ts[0].name), ts[1].text, ts[2..])
  }

  function SaysWord(o: Order, cell: Option<Value>, word: string, rest: seq<Token>): Truth {
    if word == "IS NULL" then (if rest == [] then Holds(cell.None?) else Unknown)
    else if word == "IS NOT NULL" then (if rest == [] then Holds(cell.Some?) else Unknown)
    else if word == "IN" then Listed(o, cell, rest)
    else if word == "NOT IN" then Not3(Listed(o, cell, rest))
    else if |rest| == 1 && Bound(rest[0]) then Compares(o, word, cell, rest[0].slot.value)
    else Unknown
  }

  function RecordReading(o: Order, row: Record): Reading { (ts: seq<Token>) => Says(o, row, ts) }

  lemma {:induction false} WordsDiffer()
    ensures "IS NULL" != "IS NOT NULL" && "IN" != "IS NULL" && "NOT IN" != "IS NULL" && "IN" != "IS NOT NULL"
    ensures "NOT IN" != "IS NOT NULL" && "IN" != "NOT IN"
    ensures forall w <- ["=", "!=", "<", "<=", ">", ">=", "like"] ::
      w != "IS NULL" && w != "IS NOT NULL" && w != "IN" && w != "NOT IN"
  {
    assert |"IS NULL"| == 7 && |"IS NOT NULL"| == 11 && |"IN"| == 2 && |"NOT IN"| == 6;
    assert "<="[0] != 'I' && ">="[0] != 'I' && "!="[0] != 'I' && |"like"| == 4;
  }

  /** The reading obeys what the grammar of conditions relies on. */
  lemma {:induction false} RecordReadingIsLawful(o: Order, row: Record)
    ensures Lawful(RecordReading(o, row))
  {
    hide Says, Opposite;
    var I := RecordReading(o, row);
    forall column ensures Opposite(I, [Ident(column), Sym("IS NOT NULL")], [Ident(column), Sym("IS NULL")]) {
      NullOpposite(o, row, column);
    }
    forall column, value ensures Opposite(I, [Ident(column), Sym("!="), Sym(value)], [Ident(column), Sym("="), Sym(value)]) {
      BoolOpposite(o, row, column, value);
    }
    forall column, tail: seq<Token>
      ensures Opposite(I, [Ident(column), KBetween(true)] + tail, [Ident(column), KBetween(false)] + tail)
    {
      BetweenOpposite(o, row, column, tail);
    }
    forall column, tail: seq<Token>
      ensures Opposite(I, [Ident(column), Sym("NOT IN")] + tail, [Ident(column), Sym("IN")] + tail)
    {
      ListOpposite(o, row, column, tail);
    }
    forall tokens ensures Opposite(I, [Sym("NOT EXISTS"), Inner(tokens)], [Sym("EXISTS"), Inner(tokens)]) {
      ExistsOpposite(o, row, tokens);
    }
    ConstantsSay(o, row);
  }

  lemma {:induction false} BetweenOpposite(o: Order, row: Record, column: string, tail: seq<Token>)
    ensures Opposite(RecordReading(o, row), [Ident(column), KBetween(true)] + tail, [Ident(column), KBetween(false)] + tail)
  {
    hide SaysWord;
    var a, b := [Ident(column), KBetween(true)] + tail, [Ident(column), KBetween(false)] + tail;
    assert a[1] == KBetween(true) && b[1] == KBetween(false);
  }

  lemma {:induction false} ExistsOpposite(o: Order, row: Record, tokens: seq<Token>)
    ensures Opposite(RecordReading(o, row), [Sym("NOT EXISTS"), Inner(tokens)], [Sym("EXISTS"), Inner(tokens)])
  {
    hide SaysWord;
  }

  lemma {:induction false} ConstantsSay(o: Order, row: Record)
    ensures RecordReading(o, row)([Sym("1 = 1")]) == True && RecordReading(o, row)([Sym("1 = 0")]) == False
  {
    hide SaysWord;
    assert |"1 = 1"| == 5 && "1 = 1"[4] != "1 = 0"[4];
  }

  lemma {:induction false} NullOpposite(o: Order, row: Record, column: string)
    ensures Opposite(RecordReading(o, row), [Ident(column), Sym("IS NOT NULL")], [Ident(column), Sym("IS NULL")])
  {
    WordsDiffer();
    var a, b := [Ident(column), Sym("IS NOT NULL")], [Ident(column), Sym("IS NULL")];
    assert a[2..] == [] && b[2..] == [];
  }

  lemma {:induction false} BoolOpposite(o: Order, row: Record, column: string, value: string)
    ensures Opposite(RecordReading(o, row), [Ident(column), Sym("!="), Sym(value)], [Ident(column), Sym("="), Sym(value)])
  {
    WordsDiffer();
    var a, b := [Ident(column), Sym("!="), Sym(value)], [Ident(column), Sym("="), Sym(value)];
    assert a[2..] == [Sym(value)] && b[2..] == [Sym(value)];
    assert "!=" in ["=", "!=", "<", "<=", ">", ">=", "like"] && "=" in ["=", "!=", "<", "<=", ">", ">=", "like"];
  }

  lemma {:induction false} ListOpposite(o: Order, row: Record, column: string, tail: seq<Token>)
    ensures Opposite(RecordReading(o, row), [Ident(column), Sym("NOT IN")] + tail, [Ident(column), Sym("IN")] + tail)
  {
    WordsDiffer();
    var a, b := [Ident(column), Sym("NOT IN")] + tail, [Ident(column), Sym("IN")] + tail;
    assert a[2..] == tail && b[2..] == tail && a[0] == b[0] == Ident(column);
    assert a[1] == Sym("NOT IN") && b[1] == Sym("IN");
  }

  // ----- patterns ----------------------------------------------------------------------------------------

  /** A pattern with a % in front matches what the pattern matches at some place. */
  lemma {:induction false} AnyFront(text: string, piece: string)
    ensures Matches(text, "%" + piece) <==> Ends(text, piece)
    decreases text
  {
    var pattern := "%" + piece;
    assert pattern[1..] == piece && pattern[0] == '%';
    if text != "" { AnyFront(text[1..], piece); }
    if Matches(text, pattern) {
      if Matches(text, piece) {
        assert text[0..] == text;
      } else {
        var k :| 0 <= k <= |text[1..]| && Matches(text[1..][k..], piece);
        assert text[1..][k..] == text[k + 1..];
      }
    }
    if Ends(text, piece) {
      var k :| 0 <= k <= |text| && Matches(text[k..], piece);
      if k == 0 {
        assert text[0..] == text;
      } else {
        assert text[1..][k - 1..] == text[k..];
      }
    }
  }

  lemma {:induction false} AllMatches(text: string)
    ensures Matches(text, "%")
    decreases text
  {
    assert "%"[1..] == "";
    if text != "" { AllMatches(text[1..]); }
  }

  /** A pattern with a % at the end matches what begins with a match. */
  lemma {:induction false} AnyBack(text: string, piece: string)
    ensures Matches(text, piece + "%") <==> Begins(text, piece)
    decreases |piece| + |text|
  {
    var pattern := piece + "%";
    if piece == "" {
      assert pattern == "%";
      AllMatches(text);
      assert text[..0] == "" && Matches(text[..0], piece);
    } else {
      assert pattern[0] == piece[0] && pattern[1..] == piece[1..] + "%";
      if piece[0] == '%' { AnyBack(text, piece[1..]); }
      if text != "" { AnyBack(text[1..], if piece[0] == '%' then piece else piece[1..]); }
      if Matches(text, pattern) { BackSound(text, piece); }
      if Begins(text, piece) { BackComplete(text, piece); }
    }
  }

  lemma {:induction false} BackSound(text: string, piece: string)
    requires piece != "" && Matches(text, piece + "%")
    requires piece[0] == '%' ==> (Matches(text, piece[1..] + "%") <==> Begins(text, piece[1..]))
    requires text != "" ==> var more := if piece[0] == '%' then piece else piece[1..];
      (Matches(text[1..], more + "%") <==> Begins(text[1..], more))
    ensures Begins(text, piece)
  {
    var pattern := piece + "%";
    assert pattern[0] == piece[0] && pattern[1..] == piece[1..] + "%";
    if piece[0] == '%' && Matches(text, piece[1..] + "%") {
      var k :| 0 <= k <= |text| && Matches(text[..k], piece[1..]);
      assert Matches(text[..k], piece);
    } else {
      var more := if piece[0] == '%' then piece else piece[1..];
      var k :| 0 <= k <= |text[1..]| && Matches(text[1..][..k], more);
      assert text[..k + 1][1..] == text[1..][..k] && text[..k + 1][0] == text[0];
      assert Matches(text[..k + 1], piece);
    }
  }

  lemma {:induction false} BackComplete(text: string, piece: string)
    requires piece != "" && Begins(text, piece)
    requires piece[0] == '%' ==> (Matches(text, piece[1..] + "%") <==> Begins(text, piece[1..]))
    requires text != "" ==> var more := if piece[0] == '%' then piece else piece[1..];
      (Matches(text[1..], more + "%") <==> Begins(text[1..], more))
    ensures Matches(text, piece + "%")
  {
    var pattern := piece + "%";
    assert pattern[0] == piece[0] && pattern[1..] == piece[1..] + "%";
    var k :| 0 <= k <= |text| && Matches(text[..k], piece);
    if piece[0] == '%' && Matches(text[..k], piece[1..]) {
      assert Begins(text, piece[1..]);
    } else {
      var more := if piece[0] == '%' then piece else piece[1..];
      assert k > 0 && text[..k][1..] == text[1..][..k - 1] && text[..k][0] == text[0];
      assert Begins(text[1..], more);
    }
  }

  lemma {:induction false} AnyBoth(text: string, piece: string)
    ensures Matches(text, "%" + piece + "%") <==> Contains(text, piece)
  {
    AnyFront(text, piece + "%");
    assert "%" + (piece + "%") == "%" + piece + "%";
    forall k | 0 <= k <= |text| ensures Matches(text[k..], piece + "%") <==> Begins(text[k..], piece) {
      AnyBack(text[k..], piece);
    }
    hide Matches, Begins;
  }

  // ----- one rule --------------------------------------------------------------------------------------------

  lemma {:induction false} OperatorSays(c: Compiler, env: Env, o: Order, row: Record, column: string, op: string, v: Value)
    requires op in ["=", "!=", "<", "<=", ">", ">=", "like"] && v.Plain()
    ensures OperatorToken(c, op) == Sym(op)
    ensures Says(o, row, [Ident(column), OperatorToken(c, op)] + Parameter(env, v).sql) == Compares(o, op, Cell(row, column), v)
  {
    OperatorIs(c, op);
    WordsDiffer();
    var ts := [Ident(column), Sym(op)] + [Hole(Filled(v))];
    assert Parameter(env, v).sql == [Hole(Filled(v))];
    assert ts[2..] == [Hole(Filled(v))] && ts[0] == Ident(column) && ts[1] == Sym(op);
    hide Compares, OperatorToken;
  }

  lemma {:induction false} OperatorIs(c: Compiler, op: string)
    requires op in ["=", "!=", "<", "<=", ">", ">=", "like"]
    ensures OperatorToken(c, op) == Sym(op)
  {
    assert S.Lower("=") == "=" && S.Lower("!=") == "!=" && S.Lower("<") == "<" && S.Lower(">") == ">";
    assert S.Lower("<=") == "<=" && S.Lower(">=") == ">=" && S.Lower("like") == "like";
  }

  lemma {:induction false} ItemsRead(env: Env, values: seq<Value>)
    requires values != [] && forall v <- values :: v.Plain()
    ensures ReadItems(Parameterize(env, values).sql + [Sym(")")]) == Some(values)
  {
    hide Parameter;
    ParameterIs(env, values[0]);
    var parts := ParameterParts(env, values);
    if |values| == 1 {
      assert parts == [Parameter(env, values[0])];
      assert Parameterize(env, values).sql + [Sym(")")] == [Hole(Filled(values[0])), Sym(")")];
      assert values == [values[0]];
    } else {
      ItemsRead(env, values[1..]);
      assert parts[1..] == ParameterParts(env, values[1..]);
      var rest := Parameterize(env, values[1..]).sql + [Sym(")")];
      assert Parameterize(env, values).sql + [Sym(")")] == [Hole(Filled(values[0])), Sym(",")] + rest;
      ItemsNext(values[0], rest);
      assert values == [values[0]] + values[1..];
    }
  }

  lemma {:induction false} ItemsNext(v: Value, rest: seq<Token>)
    ensures ReadItems([Hole(Filled(v)), Sym(",")] + rest) ==
      match ReadItems(rest) case None => None case Some(more) => Some([v] + more)
  {
    var ts := [Hole(Filled(v)), Sym(",")] + rest;
    assert ts[2..] == rest && ts[0] == Hole(Filled(v)) && ts[1] == Sym(",");
  }

  lemma {:induction false} ParameterIs(env: Env, v: Value)
    requires v.Plain()
    ensures Parameter(env, v).sql == [Hole(Filled(v))]
  {
  }

  lemma {:induction false} MemberIsAmong(o: Order, x: Value, values: seq<Value>)
    ensures Member(o, Some(x), values) == Among(o, x, values)
  {
    if values != [] {
      MemberIsAmong(o, x, values[1..]);
      assert values == [values[0]] + values[1..];
      assert forall v :: v in values <==> v == values[0] || v in values[1..];
    }
  }

  lemma {:induction false} MemberOfNull(o: Order, values: seq<Value>)
    requires values != []
    ensures Member(o, None, values) == Unknown
  {
    if |values| > 1 { MemberOfNull(o, values[1..]); }
  }

  lemma {:induction false} ListSays(env: Env, o: Order, row: Record, column: string, values: seq<Value>)
    requires values != [] && forall v <- values :: v.Plain()
    ensures Says(o, row, [Ident(column), Sym("IN"), Sym("(")] + (Parameterize(env, values).sql + [Sym(")")]))
      == Member(o, Cell(row, column), values)
  {
    hide Parameterize, ReadItems;
    WordsDiffer();
    ItemsRead(env, values);
    var items := Parameterize(env, values).sql + [Sym(")")];
    var ts := [Ident(column), Sym("IN"), Sym("(")] + items;
    assert ts[0] == Ident(column) && ts[1] == Sym("IN") && ts[2..] == [Sym("(")] + items;
    assert ([Sym("(")] + items)[1..] == items;
  }

  lemma {:induction false} NullSays(o: Order, row: Record, column: string)
    ensures Says(o, row, [Ident(column), Sym("IS NULL")]) == Holds(Cell(row, column).None?)
  {
    assert [Ident(column), Sym("IS NULL")][2..] == [];
  }

  lemma {:induction false} LikeSays(c: Compiler, env: Env, o: Order, row: Record, column: string, pattern: string, text: string)
    ensures Says(o, row, LikeOut(c, column, pattern, text, true, "").sql)
      == Compares(o, "like", Cell(row, column), Str(Wildcards(pattern, text)))
  {
    hide Wildcards, Compares;
    var v := Str(Wildcards(pattern, text));
    OperatorSays(c, env, o, row, column, "like", v);
    assert LikeOut(c, column, pattern, text, true, "").sql == [Ident(column), OperatorToken(c, "like")] + Parameter(env, v).sql;
  }

  /** The printed condition of a surviving rule says of a record what the operator
      code asks of the rule's own data. */
  lemma {:induction false} RuleAnswers(show: Data -> string, c: Compiler, env: Env, o: Order, row: Record, rule: Rule)
    requires RuleProblems(rule) == [] && !Skipped(rule.op, rule.data)
    requires var r := Surviving(show, rule)[0]; Ready(r) && forall v <- FM.RuleData(r) :: v.Plain()
    ensures Asks(show, o, row, rule) == Some(FM.RuleTruth(c, env, RecordReading(o, row), Surviving(show, rule)[0]))
  {
    var r := Surviving(show, rule)[0];
    if rule.op in Comparisons {
      ComparisonAnswers(show, c, env, o, row, rule);
    } else if rule.op in Likes {
      PatternAnswers(show, c, env, o, row, rule);
    } else if rule.op == "in" || rule.op == "ni" {
      SetAnswers(show, c, env, o, row, rule);
    } else {
      NullAnswers(show, c, env, o, row, rule);
    }
  }

  lemma {:induction false} NullAnswers(show: Data -> string, c: Compiler, env: Env, o: Order, row: Record, rule: Rule)
    requires rule.op == "is" || rule.op == "ns"
    requires RuleProblems(rule) == [] && Ready(Surviving(show, rule)[0])
    ensures Asks(show, o, row, rule) == Some(FM.RuleTruth(c, env, RecordReading(o, row), Surviving(show, rule)[0]))
  {
    NullSays(o, row, rule.field);
    hide Says;
  }

  lemma {:induction false} SetAnswers(show: Data -> string, c: Compiler, env: Env, o: Order, row: Record, rule: Rule)
    requires (rule.op == "in" || rule.op == "ni") && RuleProblems(rule) == [] && !Skipped(rule.op, rule.data)
    requires var r := Surviving(show, rule)[0]; Ready(r) && forall v <- FM.RuleData(r) :: v.Plain()
    ensures Asks(show, o, row, rule) == Some(FM.RuleTruth(c, env, RecordReading(o, row), Surviving(show, rule)[0]))
  {
    var values := ValuesOf(rule.data);
    var cell := Cell(row, rule.field);
    ListSays(env, o, row, rule.field, values);
    if cell.Some? { MemberIsAmong(o, cell.value, values); } else { MemberOfNull(o, values); }
    hide Says, Member, Among, Parameterize, Cell;
  }

  lemma {:induction false} ComparisonAnswers(show: Data -> string, c: Compiler, env: Env, o: Order, row: Record, rule: Rule)
    requires rule.op in Comparisons && RuleProblems(rule) == [] && !Skipped(rule.op, rule.data)
    requires var r := Surviving(show, rule)[0]; Ready(r) && forall v <- FM.RuleData(r) :: v.Plain()
    ensures Asks(show, o, row, rule) == Some(FM.RuleTruth(c, env, RecordReading(o, row), Surviving(show, rule)[0]))
  {
    var v := Compared(rule.data);
    ComparisonShape(show, rule);
    ComparisonAsks(show, o, row, rule);
    OperatorSays(c, env, o, row, rule.field, Comparisons[rule.op], v);
    hide Says, OperatorToken, Parameter, Asks, Compares, Comparisons, Likes, RuleShape, FM.RuleData, Ready, Skipped, Surviving;
    assert v in [v];
  }

  lemma {:induction false} ComparisonShape(show: Data -> string, rule: Rule)
    requires rule.op in Comparisons && !Skipped(rule.op, rule.data) && Ready(Surviving(show, rule)[0])
    ensures var r := Surviving(show, rule)[0];
      && RuleShape(r) == (false, Basic(rule.field, Comparisons[rule.op], Compared(rule.data)))
      && FM.RuleData(r) == [Compared(rule.data)]
      && Comparisons[rule.op] in ["=", "!=", "<", "<=", ">", ">=", "like"]
  {
    CodesDiffer(rule.op);
  }

  /** The codes of the families are told apart. */
  lemma {:induction false} CodesDiffer(op: string)
    ensures op in Comparisons ==> op !in Likes && op != "in" && op != "ni" && op != "is" && op != "ns"
    ensures op in Likes ==> op != "in" && op != "ni" && op != "is" && op != "ns"
  {
    if op in Comparisons { ComparisonsLook(op); }
    if op in Likes { LikesLook(op); }
    hide Comparisons, Likes;
  }

  lemma {:induction false} ComparisonsLook(op: string)
    requires op in Comparisons
    ensures |op| == 2 && (op[0] in "lg" || op == "eq" || op == "ne")
  {
  }

  lemma {:induction false} LikesLook(op: string)
    requires op in Likes
    ensures |op| == 2 && ((op[1] in "wn" && op[0] in "bec") || op == "nc")
  {
  }

  lemma {:induction false} ComparisonAsks(show: Data -> string, o: Order, row: Record, rule: Rule)
    requires rule.op in Comparisons && KnownOp(rule.op) && !Skipped(rule.op, rule.data)
    ensures Asks(show, o, row, rule) == Some(Compares(o, Comparisons[rule.op], Cell(row, rule.field), Compared(rule.data)))
  {
    CodesDiffer(rule.op);
    hide Cell, Skipped, Compared, Matches, Begins, Ends, Contains, Among, Likes;
    var cell := Cell(row, rule.field);
    if cell.Some? { ValueCompares(show, o, cell.value, rule); }
    hide AsksValue, Comparisons;
  }

  lemma {:induction false} ValueCompares(show: Data -> string, o: Order, x: Value, rule: Rule)
    requires rule.op in Comparisons && KnownOp(rule.op) && rule.op != "is" && rule.op != "ns"
    ensures AsksValue(show, o, x, rule) == Compares(o, Comparisons[rule.op], Some(x), Compared(rule.data))
  {
    CodesDiffer(rule.op);
    OperatorsDiffer();
    hide Compared, Matches, Begins, Ends, Contains, Among, Likes, KnownOp;
    if rule.op == "eq" {
    } else if rule.op == "ne" {
    } else if rule.op == "lt" {
    } else if rule.op == "le" {
    } else if rule.op == "gt" {
    } else {
      assert rule.op == "ge";
    }
  }

  lemma {:induction false} OperatorsDiffer()
    ensures "=" != "!=" && "=" != "<" && "=" != "<=" && "=" != ">" && "=" != ">=" && "!=" != "<" && "!=" != "<=" && "!=" != ">"
    ensures "!=" != ">=" && "<" != "<=" && "<" != ">" && "<" != ">=" && "<=" != ">" && "<=" != ">=" && ">" != ">="
  {
    assert "<="[0] != ">="[0] && "!="[0] != "<="[0] && "!="[0] != ">="[0] && "="[0] != "<"[0] && "="[0] != ">"[0] && "<"[0] != ">"[0];
  }

  lemma {:induction false} PatternAnswers(show: Data -> string, c: Compiler, env: Env, o: Order, row: Record, rule: Rule)
    requires rule.op in Likes && RuleProblems(rule) == [] && !Skipped(rule.op, rule.data)
    requires Ready(Surviving(show, rule)[0])
    ensures Asks(show, o, row, rule) == Some(FM.RuleTruth(c, env, RecordReading(o, row), Surviving(show, rule)[0]))
  {
    hide Says, LikeOut, Asks, Compares, Likes, RuleShape, Ready, Skipped, Surviving, Wildcards, Cell;
    PatternShape(show, rule);
    PatternAsks(show, o, row, rule);
    LikeSays(c, env, o, row, rule.field, Likes[rule.op].1, show(rule.data));
  }

  lemma {:induction false} PatternShape(show: Data -> string, rule: Rule)
    requires rule.op in Likes && !Skipped(rule.op, rule.data) && Ready(Surviving(show, rule)[0])
    ensures var r := Surviving(show, rule)[0];
      RuleShape(r) == (Likes[rule.op].0, Like(rule.field, Likes[rule.op].1, show(rule.data), true, ""))
  {
    CodesDiffer(rule.op);
  }

  lemma {:induction false} PatternAsks(show: Data -> string, o: Order, row: Record, rule: Rule)
    requires rule.op in Likes && KnownOp(rule.op) && !Skipped(rule.op, rule.data)
    ensures Asks(show, o, row, rule) == Some(NotIf(Likes[rule.op].0,
      Compares(o, "like", Cell(row, rule.field), Str(Wildcards(Likes[rule.op].1, show(rule.data))))))
  {
    CodesDiffer(rule.op);
    hide Cell, Skipped, Compared, Matches, Begins, Ends, Contains, Among, Wildcards;
    var cell := Cell(row, rule.field);
    if cell.Some? { ValueMatches(show, o, cell.value, rule); }
    hide AsksValue, Likes;
  }

  lemma {:induction false} ValueMatches(show: Data -> string, o: Order, x: Value, rule: Rule)
    requires rule.op in Likes && KnownOp(rule.op) && rule.op != "is" && rule.op != "ns"
    ensures AsksValue(show, o, x, rule)
      == NotIf(Likes[rule.op].0, Compares(o, "like", Some(x), Str(Wildcards(Likes[rule.op].1, show(rule.data)))))
  {
    var text, piece := o.text(x), show(rule.data);
    CodesDiffer(rule.op);
    PatternsMatch(text, piece);
    LikeCompares(o, x, Wildcards(Likes[rule.op].1, piece));
    hide Compares, Matches, Begins, Ends, Contains, Among, Comparisons, KnownOp, Compared, Wildcards;
    if rule.op == "bw" {
    } else if rule.op == "bn" {
    } else if rule.op == "ew" {
    } else if rule.op == "en" {
    } else if rule.op == "cn" {
    } else {
      assert rule.op == "nc";
    }
  }

  lemma {:induction false} LikeCompares(o: Order, x: Value, pattern: string)
    ensures Compares(o, "like", Some(x), Str(pattern)) == Holds(Matches(o.text(x), pattern))
  {
    hide Matches;
    assert |"like"| == 4;
  }

  lemma {:induction false} PatternsMatch(text: string, piece: string)
    ensures Matches(text, Wildcards("starts", piece)) <==> Begins(text, piece)
    ensures Matches(text, Wildcards("ends", piece)) <==> Ends(text, piece)
    ensures Matches(text, Wildcards("contains", piece)) <==> Contains(text, piece)
  {
    AnyBack(text, piece);
    AnyFront(text, piece);
    AnyBoth(text, piece);
    hide Matches, Begins, Ends, Contains;
    assert |"starts"| == 6 && |"ends"| == 4 && |"contains"| == 8;
  }

  // ----- the whole tree ------------------------------------------------------------------------------------------

  /** What the rules of one level ask, after the hooks. */
  function RulesAsk(show: Data -> string, hooks: seq<Hook>, o: Order, row: Record, rules: seq<Rule>): seq<Truth>
    requires ResolveRules(show, hooks, rules).Ok?
  {
    if rules == [] then []
    else
      var rule := Chain(RuleStages(hooks), rules[0]).value;
      (match Asks(show, o, row, rule) case Some(t) => [t] case None => [])
      + RulesAsk(show, hooks, o, row, rules[1..])
  }

  /** What a filter asks of a record; None when nothing of it survives. */
  function FilterAsks(show: Data -> string, hooks: seq<Hook>, o: Order, row: Record, f: Filter): Option<Truth>
    requires Resolve(show, hooks, f).Ok?
    decreases f, 1
  {
    var members := RulesAsk(show, hooks, o, row, f.rules) + GroupsAsk(show, hooks, o, row, f.groups);
    if members == [] then None
    else Some(if f.groupOp == "or" then FM.SomeOf(members) else AllOf(members))
  }

  function GroupsAsk(show: Data -> string, hooks: seq<Hook>, o: Order, row: Record, groups: seq<Filter>): seq<Truth>
    requires ResolveGroups(show, hooks, groups).Ok?
    decreases groups, 0
  {
    if groups == [] then []
    else
      (match FilterAsks(show, hooks, o, row, groups[0]) case Some(t) => [t] case None => [])
      + GroupsAsk(show, hooks, o, row, groups[1..])
  }

  lemma {:induction false} RulesAgree(show: Data -> string, hooks: seq<Hook>, c: Compiler, env: Env, o: Order, row: Record,
                                      rules: seq<Rule>)
    requires ResolveRules(show, hooks, rules).Ok? && forall v <- FM.RulesData(show, hooks, rules) :: v.Plain()
    ensures RulesAsk(show, hooks, o, row, rules) == FM.RuleVerdicts(show, hooks, c, env, RecordReading(o, row), rules)
  {
    if rules != [] {
      var rule := Chain(RuleStages(hooks), rules[0]).value;
      var here := if Skipped(rule.op, rule.data) then [] else FM.RuleData(Surviving(show, rule)[0]);
      FM.SurvivorReady(show, rule);
      var rest := FM.RulesData(show, hooks, rules[1..]);
      assert FM.RulesData(show, hooks, rules) == here + rest;
      assert forall v <- rest :: v in here + rest;
      assert forall v <- here :: v in here + rest;
      RulesAgree(show, hooks, c, env, o, row, rules[1..]);
      hide Says, FM.RuleTruth, FM.RuleData, Chain, Ready, AsksValue;
      if !Skipped(rule.op, rule.data) {
        RuleAnswers(show, c, env, o, row, rule);
      } else {
        assert Asks(show, o, row, rule).None?;
      }
    }
  }

  lemma {:induction false} FiltersAgree(show: Data -> string, hooks: seq<Hook>, c: Compiler, env: Env, o: Order, row: Record, f: Filter)
    requires Resolve(show, hooks, f).Ok? && forall v <- FM.PreOrder(show, hooks, f) :: v.Plain()
    ensures FilterAsks(show, hooks, o, row, f) == FM.Verdict(show, hooks, c, env, RecordReading(o, row), f)
    decreases f, 1
  {
    var rules, groups := FM.RulesData(show, hooks, f.rules), FM.GroupsData(show, hooks, f.groups);
    assert FM.PreOrder(show, hooks, f) == rules + groups;
    assert forall v <- rules :: v in rules + groups;
    assert forall v <- groups :: v in rules + groups;
    hide Says, FM.RulesData, FM.GroupsData, RulesAsk, ResolveRules;
    RulesAgree(show, hooks, c, env, o, row, f.rules);
    GroupsAgree(show, hooks, c, env, o, row, f.groups);
  }

  lemma {:induction false} GroupsAgree(show: Data -> string, hooks: seq<Hook>, c: Compiler, env: Env, o: Order, row: Record,
                                       groups: seq<Filter>)
    requires ResolveGroups(show, hooks, groups).Ok? && forall v <- FM.GroupsData(show, hooks, groups) :: v.Plain()
    ensures GroupsAsk(show, hooks, o, row, groups) == FM.GroupVerdicts(show, hooks, c, env, RecordReading(o, row), groups)
    decreases groups, 0
  {
    hide Says, FilterAsks, FM.Verdict, Resolve;
    if groups != [] {
      var here, rest := FM.PreOrder(show, hooks, groups[0]), FM.GroupsData(show, hooks, groups[1..]);
      assert FM.GroupsData(show, hooks, groups) == here + rest;
      assert forall v <- here :: v in here + rest;
      assert forall v <- rest :: v in here + rest;
      FiltersAgree(show, hooks, c, env, o, row, groups[0]);
      GroupsAgree(show, hooks, c, env, o, row, groups[1..]);
    }
  }

  /** End to end: for plain data, the WHERE section printed for a filter tree of any
      depth, read by the grammar on a record, has the truth that the operator codes
      ask for on the data, and is absent exactly when nothing is asked; what it binds
      are the data of the surviving rules themselves. */
  lemma {:induction false} FilterAnswered(show: Data -> string, hooks: seq<Hook>, c: Compiler, env: Env, o: Order, row: Record, f: Filter)
    requires Resolve(show, hooks, f).Ok? && forall v <- FM.PreOrder(show, hooks, f) :: v.Plain()
    ensures ReadyTree(Resolve(show, hooks, f).value)
    ensures var cs := Landed(Resolve(show, hooks, f).value);
      var out := ConditionSection("WHERE", cs, EmitClauses(c, env, cs));
      && out.args == FM.PreOrder(show, hooks, f)
      && match FilterAsks(show, hooks, o, row, f)
         case None => out.sql == []
         case Some(truth) =>
           out.sql != [] && out.sql[0] == Sym("WHERE") &&
           var p := ParseCondition(out.sql[1..]);
           p.Some? && p.value.rest == [] && EvalTerms(RecordReading(o, row), p.value.value) == truth
  {
    hide Says, FM.PreOrder, FM.Verdict, FilterAsks, Resolve, Landed, ReadyTree, ConditionSection, EmitClauses, ParseCondition,
      EvalTerms, Lawful;
    RecordReadingIsLawful(o, row);
    FM.FilterPreserved(show, hooks, c, env, RecordReading(o, row), f);
    FM.PlainBound(env, FM.PreOrder(show, hooks, f));
    FiltersAgree(show, hooks, c, env, o, row, f);
  }
}
