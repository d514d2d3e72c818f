/** Placeholders of a fragment of output against its arguments, and what every
    query made by the builder satisfies. */
module Placeholders {
  import opened Ast
  import opened Dialects
  import S = Strings

  /** The slots of the placeholders, read left to right. */
  function Holes(ts: seq<Token>): seq<Slot>
    decreases ts
  {
    if ts == [] then []
    else
      (match ts[0]
       case Hole(slot) => [slot]
       case Inner(tokens) => Holes(tokens)
       case _ => [])
      + Holes(ts[1..])
  }

  function Slots(args: seq<Value>): (slots: seq<Slot>)
    ensures |slots| == |args|
    ensures Unfilled !in slots
  {
    seq(|args|, i requires 0 <= i < |args| => Filled(args[i]))
  }

  /** The placeholders stand for exactly the arguments, in order. */
  predicate Aligned(o: Out) { Holes(o.sql) == Slots(o.args) }

  /** A fragment that no further output can bring back into line. */
  predicate Broken(o: Out) { Unfilled in Holes(o.sql) || |Holes(o.sql)| < |o.args| }

  predicate Settled(o: Out) { Aligned(o) || Broken(o) }

  lemma {:induction false} HolesConcat(a: seq<Token>, b: seq<Token>)
    ensures Holes(a + b) == Holes(a) + Holes(b)
    decreases a
  {
    if a == [] {
      assert a + b == b;
    } else {
      assert (a + b)[1..] == a[1..] + b;
      HolesConcat(a[1..], b);
    }
  }

  lemma {:induction false} HolesOfOne(t: Token)
    ensures Holes([t]) == match t case Hole(s) => [s] case Inner(ts) => Holes(ts) case _ => []
  {
    assert [t][1..] == [];
  }

  lemma {:induction false} SettledCat(a: Out, b: Out)
    requires Settled(a) && Settled(b)
    ensures Settled(Cat(a, b)) && (Aligned(Cat(a, b)) <==> Aligned(a) && Aligned(b))
  {
    HolesConcat(a.sql, b.sql);
    SlotsConcat(a.args, b.args);
    hide Holes, Slots;
    var ha, hb := Holes(a.sql), Holes(b.sql);
    assert |ha + hb| == |ha| + |hb|;
    if Aligned(Cat(a, b)) {
      assert Unfilled !in ha && Unfilled !in hb;
      assert ha == (ha + hb)[..|ha|] && hb == (ha + hb)[|ha|..];
    }
  }

  lemma {:induction false} SlotsConcat(a: seq<Value>, b: seq<Value>)
    ensures Slots(a + b) == Slots(a) + Slots(b)
  {
  }

  // ----- gaps --------------------------------------------------------------------------

  /** No gap anywhere: every operator, table, variable and value that the printing
      code asked for was there. */
  predicate Clean(ts: seq<Token>) { forall t <- ts :: CleanToken(t) }

  predicate CleanToken(t: Token)
    decreases t
  {
    match t
    case Fault(_) => false
    case Inner(tokens) => forall u <- tokens :: CleanToken(u)
    case _ => true
  }

  // ----- fragments without placeholders -----------------------------------------------

  /** Fixed text: no placeholder, no embedded fragment, nothing missing. */
  predicate Fixed(ts: seq<Token>) {
    forall t <- ts :: !t.Hole? && !t.Inner? && !t.Fault?
  }

  /** Like Fixed, but something may be missing. */
  predicate Holeless(ts: seq<Token>) {
    forall t <- ts :: !t.Hole? && !t.Inner?
  }

  lemma {:induction false} HolelessHasNoHoles(ts: seq<Token>)
    requires Holeless(ts)
    ensures Holes(ts) == []
  {
    if ts != [] { HolelessHasNoHoles(ts[1..]); }
  }

  /** Fixed text around a fragment does not change how it stands. */
  lemma {:induction false} Around(before: seq<Token>, o: Out, after: seq<Token>)
    requires Holeless(before) && Holeless(after)
    ensures Holes(before + o.sql + after) == Holes(o.sql)
    ensures var r := Out(before + o.sql + after, o.args);
      && (Aligned(r) <==> Aligned(o)) && (Broken(r) <==> Broken(o))
  {
    HolelessHasNoHoles(before);
    HolelessHasNoHoles(after);
    HolesConcat(before, o.sql);
    HolesConcat(before + o.sql, after);
  }

  /** Embedding a fragment does not change how it stands. */
  lemma {:induction false} Embedding(before: seq<Token>, o: Out, after: seq<Token>)
    requires Holeless(before) && Holeless(after)
    ensures var r := Out(before + [Inner(o.sql)] + after, o.args);
      && (Aligned(r) <==> Aligned(o)) && (Broken(r) <==> Broken(o))
  {
    HolesOfOne(Inner(o.sql));
    Around(before, Out([Inner(o.sql)], o.args), after);
  }

  // ----- raw expressions ----------------------------------------------------------------

  /** A raw expression has as many "?" as bindings; text the compiler printed
      itself carries its placeholders. */
  predicate RawBalanced(raw: Raw) {
    match raw.expression
    case Written(text) => S.Placeholders(text) == |raw.bindings|
    case Printed(tokens) => Aligned(Out(tokens, raw.bindings))
  }

  predicate RawSettled(raw: Raw) {
    raw.expression.Printed? ==>
      Settled(Out(raw.expression.tokens, raw.bindings)) && Clean(raw.expression.tokens)
  }

  lemma {:induction false} RawTokensHoles(text: string, bindings: seq<Value>)
    ensures var holes := Holes(RawTokens(text, bindings));
      && |holes| == S.Placeholders(text)
      && forall i :: 0 <= i < |holes| ==> holes[i] == if i < |bindings| then Filled(bindings[i]) else Unfilled
    decreases text
  {
    var ts := RawTokens(text, bindings);
    if text == "" {
    } else if text[0] == '?' {
      RawTokensHoles(text[1..], if bindings == [] then [] else bindings[1..]);
      assert ts[1..] == RawTokens(text[1..], if bindings == [] then [] else bindings[1..]);
    } else {
      RawTokensHoles(text[1..], bindings);
      assert ts[1..] == RawTokens(text[1..], bindings);
    }
  }

  lemma {:induction false} RawStands(c: Compiler, raw: Raw)
    requires RawSettled(raw)
    ensures Settled(RawOut(c, raw)) && (Aligned(RawOut(c, raw)) <==> RawBalanced(raw))
  {
    var tokens := ExpressionTokens(c, raw);
    if tokens != [] {
      Embedding([], Out(tokens, raw.bindings), []);
      assert [] + [Inner(tokens)] + [] == [Inner(tokens)];
    }
    match raw.expression
    case Written(text) =>
      S.WrapKeepsPlaceholders(c.Quotes(), text);
      RawTokensHoles(S.WrapIdentifiers(c.Quotes(), text), raw.bindings);
      var holes := Holes(tokens);
      if |holes| > |raw.bindings| { assert holes[|raw.bindings|] == Unfilled; }
    case Printed(_) =>
  }

  // ----- what the builder makes ------------------------------------------------------------

  /** The raw expression a clause carries. */
  function RawOf(cl: Clause): Option<Raw> {
    match cl.body
    case FromRaw(raw) => Some(raw)
    case RawColumn(_, raw) => Some(raw)
    case Condition(_, _, _, shape) => if shape.RawCondition? then Some(shape.raw) else None
    case OrderRaw(raw) => Some(raw)
    case CombineRaw(raw) => Some(raw)
    case RawCte(_, raw) => Some(raw)
    case _ => None
  }

  /** Invariants of every clause list that the builder's verbs produce: conditions
      and columns are in sections of their own, a comparison of a subquery and a
      raw condition are never negated by a flag, and a join has an unscoped
      target. */
  predicate Built(cs: seq<Clause>)
    decreases ClausesSize(cs), 1
  {
    forall i {:trigger cs[i]} :: 0 <= i < |cs| ==> (SizeOfMember(cs, i); BuiltClause(cs[i]))
  }

  predicate BuiltClause(cl: Clause)
    decreases ClauseSize(cl), 0
  {
    && (RawOf(cl).Some? ==> RawSettled(RawOf(cl).value))
    && (match cl.body
        case Column(section, _) => section == Select || section == Group
        case RawColumn(section, _) => section == Select || section == Group
        case Condition(section, _, not, shape) =>
          (section == Where || section == Having) && (shape.RawCondition? || shape.SubQuery? ==> !not)
        case _ => true)
    && (SubQueryOf(cl).Some? ==> Built(SubQueryOf(cl).value.clauses))
    && (GroupOf(cl).Some? ==> Built(GroupOf(cl).value.clauses))
    && (JoinOf(cl).Some? ==>
          Built(JoinOf(cl).value) && exists t <- JoinOf(cl).value :: Tag(t) == From && t.engine == "")
  }
}
