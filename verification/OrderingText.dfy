/** SQL Server's legacy pagination puts ordering text that is already printed into a
    raw column, whose markers are substituted again: for which queries that is
    harmless. */
module OrderingText {
  import opened Ast
  import opened Dialects
  import opened Emit
  import S = Strings

  // ----- spelling tokens -----------------------------------------------------------------------

  /** The characters of a raw expression. */
  function SpellRaw(ts: seq<Token>): string {
    if ts == [] then ""
    else
      (match ts[0]
       case Chr(ch) => [ch]
       case Hole(_) => "?"
       case _ => "")
      + SpellRaw(ts[1..])
  }

  /** The text of one ordering: an identifier in quotes, with its direction, a raw
      expression, or the random function. */
  function Spell(c: Compiler, ts: seq<Token>): string {
    if ts == [] then ""
    else
      (match ts[0]
       case Ident(name) => S.Wrap(c.Quotes(), "AS ", name)
       case Sym(text) => text
       case Inner(tokens) => SpellRaw(tokens)
       case _ => "")
      + (if |ts| == 1 then "" else " " + Spell(c, ts[1..]))
  }

  function OrderText(c: Compiler, cl: Clause): string { Spell(c, OrderOut(c, cl).sql) }

  function OrderTexts(c: Compiler, orders: seq<Clause>): string {
    if orders == [] then ""
    else if |orders| == 1 then OrderText(c, orders[0])
    else OrderText(c, orders[0]) + ", " + OrderTexts(c, orders[1..])
  }

  /** The expression that is handed to the raw column. */
  function NumberText(c: Compiler, orders: seq<Clause>): string {
    "ROW_NUMBER() OVER (" + (if orders == [] then "ORDER BY (SELECT 0)" else "ORDER BY " + OrderTexts(c, orders))
    + ") AS [row_num]"
  }

  /** The raw text that is spelled is the substituted expression itself. */
  lemma {:induction false} RawIsSpelled(text: string, bindings: seq<Value>)
    ensures SpellRaw(RawTokens(text, bindings)) == text
    decreases text
  {
    var ts := RawTokens(text, bindings);
    if text == "" {
    } else if text[0] == '?' {
      var rest := if bindings == [] then [] else bindings[1..];
      RawIsSpelled(text[1..], rest);
      assert ts[1..] == RawTokens(text[1..], rest);
      assert text == "?" + text[1..];
    } else {
      RawIsSpelled(text[1..], bindings);
      assert ts[1..] == RawTokens(text[1..], bindings);
      assert text == [text[0]] + text[1..];
    }
  }

  lemma {:induction false} RawOrderText(c: Compiler, cl: Clause, text: string, bindings: seq<Value>)
    requires cl.body == OrderRaw(Raw(Written(text), bindings))
    ensures OrderText(c, cl) == S.WrapIdentifiers(c.Quotes(), text)
  {
    var printed := S.WrapIdentifiers(c.Quotes(), text);
    RawIsSpelled(printed, bindings);
    hide S.WrapIdentifiers;
    if RawTokens(printed, bindings) == [] { assert printed == ""; }
  }

  // ----- where a second substitution finds nothing ------------------------------------------------

  predicate Unmarked(t: string) {
    '{' !in t && '}' !in t && !S.Escaped(t, '[') && !S.Escaped(t, ']')
  }

  lemma {:induction false} EscapedConcat(a: string, b: string, m: char)
    ensures S.Escaped(a + b, m)
      <==> S.Escaped(a, m) || S.Escaped(b, m) || (a != "" && b != "" && a[|a| - 1] == '\\' && b[0] == m)
  {
    var s := a + b;
    if S.Escaped(s, m) {
      var i :| 0 <= i < |s| - 1 && s[i] == '\\' && s[i + 1] == m;
      if i + 1 < |a| {
        assert a[i] == '\\' && a[i + 1] == m;
      } else if i >= |a| {
        assert b[i - |a|] == '\\' && b[i - |a| + 1] == m;
      }
    }
    if S.Escaped(a, m) {
      var i :| 0 <= i < |a| - 1 && a[i] == '\\' && a[i + 1] == m;
      assert s[i] == '\\' && s[i + 1] == m;
    }
    if S.Escaped(b, m) {
      var i :| 0 <= i < |b| - 1 && b[i] == '\\' && b[i + 1] == m;
      assert s[|a| + i] == '\\' && s[|a| + i + 1] == m;
    }
    if a != "" && b != "" && a[|a| - 1] == '\\' && b[0] == m { assert s[|a| - 1] == '\\' && s[|a|] == m; }
  }

  /** A text that separates: it begins with no bracket and ends with no backslash. */
  predicate Separates(sep: string) {
    Unmarked(sep) && sep != "" && sep[0] != '[' && sep[0] != ']' && sep[|sep| - 1] != '\\'
  }

  lemma {:induction false} UnmarkedAround(a: string, sep: string, b: string)
    requires Separates(sep)
    ensures Unmarked(a + sep + b) <==> Unmarked(a) && Unmarked(b)
  {
    EscapedConcat(a, sep, '[');
    EscapedConcat(a, sep, ']');
    EscapedConcat(a + sep, b, '[');
    EscapedConcat(a + sep, b, ']');
    hide S.Escaped;
    assert (a + sep)[|a + sep| - 1] == sep[|sep| - 1];
    assert forall ch: char :: ch in a + sep + b <==> ch in a || ch in sep || ch in b;
  }

  lemma {:induction false} OrdersUnmarked(c: Compiler, orders: seq<Clause>)
    requires orders != []
    ensures Unmarked(OrderTexts(c, orders)) <==> forall cl <- orders :: Unmarked(OrderText(c, cl))
  {
    hide OrderText, Unmarked;
    if |orders| > 1 {
      OrdersUnmarked(c, orders[1..]);
      CommaSeparates();
      UnmarkedAround(OrderText(c, orders[0]), ", ", OrderTexts(c, orders[1..]));
      assert orders == [orders[0]] + orders[1..];
    } else {
      assert orders == [orders[0]];
    }
  }

  lemma {:induction false} CommaSeparates()
    ensures Separates(", ")
  {
    PlainIsUnmarked(", ");
  }

  /** The name of the number column is already in brackets: marker characters, but
      not escaped ones. */
  lemma {:induction false} NameSeparates()
    ensures Separates(") AS [row_num]")
  {
    PlainIsUnmarked(") AS [row_num]");
    hide Unmarked;
  }

  lemma {:induction false} FrameSeparates()
    ensures Separates("ROW_NUMBER() OVER (ORDER BY ") && Separates(") AS [row_num]") && Unmarked("")
  {
    hide Unmarked;
    PlainIsUnmarked("ROW_NUMBER() OVER (ORDER BY ");
    NameSeparates();
    PlainIsUnmarked("");
  }

  lemma {:induction false} FillerUnmarked()
    ensures Unmarked("(SELECT 0)") && "ORDER BY (SELECT 0)" == "ORDER BY " + "(SELECT 0)"
  {
    PlainIsUnmarked("(SELECT 0)");
    hide Unmarked;
  }

  lemma {:induction false} PlainIsUnmarked(t: string)
    requires '\\' !in t && '{' !in t && '}' !in t
    ensures Unmarked(t)
  {
  }

  /** The exact condition, for whole queries: the second substitution of the numbered
      column changes nothing if and only if no visible ordering, as printed, holds a
      brace or an escaped bracket. */
  lemma {:induction false} SecondPassIsHarmless(c: Compiler, q: Query)
    requires c.dialect == SqlServer(true)
    ensures var orders := Components(q.clauses, Order, c.Engine());
      S.WrapIdentifiers(c.Quotes(), NumberText(c, orders)) == NumberText(c, orders)
      <==> forall cl <- orders :: Unmarked(OrderText(c, cl))
  {
    hide Components, OrderText, OrderTexts, NumberText, S.WrapIdentifiers, S.Escaped;
    var orders := Components(q.clauses, Order, c.Engine());
    S.SecondSubstitution(NumberText(c, orders));
    NumberUnmarked(c, orders);
  }

  lemma {:induction false} NumberUnmarked(c: Compiler, orders: seq<Clause>)
    ensures Unmarked(NumberText(c, orders)) <==> forall cl <- orders :: Unmarked(OrderText(c, cl))
  {
    hide Unmarked, OrderText, OrderTexts;
    FillerUnmarked();
    if orders != [] { OrdersUnmarked(c, orders); }
    FrameUnmarked(if orders == [] then "(SELECT 0)" else OrderTexts(c, orders));
  }

  lemma {:induction false} FrameUnmarked(texts: string)
    ensures Unmarked("ROW_NUMBER() OVER (" + ("ORDER BY " + texts) + ") AS [row_num]") <==> Unmarked(texts)
  {
    FrameSeparates();
    FrameAround(texts);
    UnmarkedAround("", "ROW_NUMBER() OVER (ORDER BY ", texts + ") AS [row_num]");
    UnmarkedAround(texts, ") AS [row_num]", "");
    hide Unmarked, Separates;
  }

  lemma {:induction false} FrameAround(texts: string)
    ensures "ROW_NUMBER() OVER (" + ("ORDER BY " + texts) + ") AS [row_num]"
      == "" + "ROW_NUMBER() OVER (ORDER BY " + (texts + ") AS [row_num]")
    ensures texts + ") AS [row_num]" + "" == texts + ") AS [row_num]"
  {
    var back := ") AS [row_num]";
    assert "ROW_NUMBER() OVER (" + "ORDER BY " == "ROW_NUMBER() OVER (ORDER BY ";
    assert "ROW_NUMBER() OVER (" + ("ORDER BY " + texts) + back == "ROW_NUMBER() OVER (" + "ORDER BY " + (texts + back);
  }

  /** An escaped brace in a raw ordering does not survive: it is printed as a brace
      and then substituted. */
  lemma {:induction false} EscapedBraceIsLost(c: Compiler, q: Query, bindings: seq<Value>)
    requires c.dialect == SqlServer(true)
    requires q.clauses == [Clause("", OrderRaw(Raw(Written("\\{"), bindings)))]
    ensures var orders := Components(q.clauses, Order, c.Engine());
      S.WrapIdentifiers(c.Quotes(), NumberText(c, orders)) != NumberText(c, orders)
  {
    var cl := q.clauses[0];
    assert q.clauses[1..] == [];
    assert Components(q.clauses, Order, c.Engine()) == [cl];
    RawOrderText(c, cl, "\\{", bindings);
    S.MarkerRoundTrip(c.Quotes(), "{");
    assert S.Escape("{", "{}[]") == "\\{";
    SecondPassIsHarmless(c, q);
    assert '{' in OrderText(c, cl) && cl in [cl];
  }
}
