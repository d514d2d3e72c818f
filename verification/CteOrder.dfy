/** The order of the WITH list, for every clause tree: repeated aliases included. */
module CteOrder {
  import opened Ast
  import opened Ctes

  // ----- the shape of the list ------------------------------------------------------------

  /** The definitions a level collects itself: what is left of its declarations
      after dropping the aliases already seen. */
  function Own(engine: string, seen: set<string>, ctes: seq<Clause>): seq<Clause>
    decreases ctes
  {
    if ctes == [] then []
    else if Alias(ctes[0]) in seen then Own(engine, seen, ctes[1..])
    else [ctes[0]] + Own(engine, FindBody(engine, seen + {Alias(ctes[0])}, ctes[0]).seen, ctes[1..])
  }

  /** What the bodies of a level contribute: the later body goes before the earlier. */
  function Nested(engine: string, seen: set<string>, ctes: seq<Clause>): seq<Clause>
    decreases ctes
  {
    if ctes == [] then []
    else if Alias(ctes[0]) in seen then Nested(engine, seen, ctes[1..])
    else
      var body := FindBody(engine, seen + {Alias(ctes[0])}, ctes[0]);
      Nested(engine, body.seen, ctes[1..]) + body.ctes
  }

  /** Some of the clauses, in the same order. */
  predicate Subsequence(a: seq<Clause>, b: seq<Clause>)
    decreases b
  {
    if a == [] then true
    else if b == [] then false
    else if a[0] == b[0] then Subsequence(a[1..], b[1..])
    else Subsequence(a, b[1..])
  }

  lemma {:induction false} SubsequenceDrops(a: seq<Clause>, b: seq<Clause>)
    requires a != [] && Subsequence(a, b)
    ensures Subsequence(a[1..], b)
    decreases b
  {
    if a[0] == b[0] {
      if a[1..] != [] && a[1] == b[0] { SubsequenceDrops(a[1..], b[1..]); }
    } else {
      SubsequenceDrops(a, b[1..]);
      if a[1..] != [] && a[1] == b[0] { SubsequenceDrops(a[1..], b[1..]); }
    }
  }

  lemma {:induction false} OwnIsSubsequence(engine: string, seen: set<string>, ctes: seq<Clause>)
    ensures Subsequence(Own(engine, seen, ctes), ctes)
    decreases ctes
  {
    hide FindBody;
    if ctes != [] {
      if Alias(ctes[0]) in seen {
        OwnIsSubsequence(engine, seen, ctes[1..]);
        var own := Own(engine, seen, ctes[1..]);
        if own != [] && own[0] == ctes[0] { SubsequenceDrops(own, ctes[1..]); }
      } else {
        OwnIsSubsequence(engine, FindBody(engine, seen + {Alias(ctes[0])}, ctes[0]).seen, ctes[1..]);
      }
    }
  }

  /** The definitions of one level stand together, in declaration order, behind
      everything their bodies define. */
  lemma {:induction false} LevelForm(engine: string, seen: set<string>, ctes: seq<Clause>, result: seq<Clause>)
    ensures FindLevel(engine, seen, ctes, result).ctes
      == Nested(engine, seen, ctes) + result + Own(engine, seen, ctes)
    decreases ctes
  {
    if ctes == [] {
      assert [] + result + [] == result;
    } else if Alias(ctes[0]) in seen {
      LevelForm(engine, seen, ctes[1..], result);
    } else {
      var cl := ctes[0];
      var body := FindBody(engine, seen + {Alias(cl)}, cl);
      LevelForm(engine, body.seen, ctes[1..], body.ctes + (result + [cl]));
      var nested, own := Nested(engine, body.seen, ctes[1..]), Own(engine, body.seen, ctes[1..]);
      assert nested + (body.ctes + (result + [cl])) + own == nested + body.ctes + result + ([cl] + own);
    }
  }

  /** Declaration order within a level is kept in the whole list. */
  lemma {:induction false} SameLevelOrderKept(engine: string, seen: set<string>, cs: seq<Clause>)
    ensures var ctes := Components(cs, Cte, engine);
      var own, nested := Own(engine, seen, ctes), Nested(engine, seen, ctes);
      var level := FindLevel(engine, seen, ctes, []);
      && Subsequence(own, ctes)
      && Find(engine, seen, cs).ctes == nested + own + FindRest(engine, level.seen, cs).ctes
      && (forall cl <- ctes :: Alias(cl) !in seen + Aliases(nested) ==> exists kept <- own :: Alias(kept) == Alias(cl))
  {
    var ctes := Components(cs, Cte, engine);
    LevelForm(engine, seen, ctes, []);
    assert Nested(engine, seen, ctes) + [] + Own(engine, seen, ctes) == Nested(engine, seen, ctes) + Own(engine, seen, ctes);
    OwnKeepsUnseen(engine, seen, ctes);
    OwnIsSubsequence(engine, seen, ctes);
  }

  /** A declaration is missing from its level only when its alias was seen before,
      or is defined in an earlier body of the level. */
  lemma {:induction false} OwnKeepsUnseen(engine: string, seen: set<string>, ctes: seq<Clause>)
    ensures forall cl <- ctes :: Alias(cl) !in seen + Aliases(Nested(engine, seen, ctes)) ==>
      exists kept <- Own(engine, seen, ctes) :: Alias(kept) == Alias(cl)
    decreases ctes
  {
    if ctes != [] {
      if Alias(ctes[0]) in seen {
        OwnKeepsUnseen(engine, seen, ctes[1..]);
      } else {
        var seen' := seen + {Alias(ctes[0])};
        var body := FindBody(engine, seen', ctes[0]);
        BodyFresh(engine, seen', ctes[0]);
        OwnKeepsUnseen(engine, body.seen, ctes[1..]);
        var nested, own := Nested(engine, body.seen, ctes[1..]), Own(engine, body.seen, ctes[1..]);
        AliasesConcat(nested, body.ctes);
        hide FindBody, Nested;
        forall cl | cl in ctes && Alias(cl) !in seen + Aliases(nested + body.ctes)
          ensures exists kept <- [ctes[0]] + own :: Alias(kept) == Alias(cl)
        {
          if Alias(cl) == Alias(ctes[0]) {
            assert ctes[0] in [ctes[0]] + own;
          } else {
            assert cl in ctes[1..];
            var kept :| kept in own && Alias(kept) == Alias(cl);
            assert kept in [ctes[0]] + own;
          }
        }
      }
    }
  }

  lemma {:induction false} BodyFresh(engine: string, seen: set<string>, cl: Clause)
    ensures Fresh(seen, FindBody(engine, seen, cl))
  {
    if CteBody(cl).Some? { FindDistinct(engine, seen, CteBody(cl).value); }
  }

  // ----- what is collected inside a body precedes it ------------------------------------------

  ghost predicate Precedes(s: seq<Clause>, d: Clause, x: Clause) {
    exists i, j :: 0 <= i < j < |s| && s[i] == d && s[j] == x
  }

  /** Every definition the search lists, with what was first collected while its
      body was searched. */
  function Descents(engine: string, seen: set<string>, cs: seq<Clause>): seq<(Clause, seq<Clause>)>
    decreases ClausesSize(cs), 3
  {
    var ctes := Components(cs, Cte, engine);
    DescentsLevel(engine, seen, ctes) + DescentsRest(engine, FindLevel(engine, seen, ctes, []).seen, cs)
  }

  function DescentsLevel(engine: string, seen: set<string>, ctes: seq<Clause>): seq<(Clause, seq<Clause>)>
    decreases ClausesSize(ctes), 2
  {
    if ctes == [] then []
    else if Alias(ctes[0]) in seen then DescentsLevel(engine, seen, ctes[1..])
    else
      var seen' := seen + {Alias(ctes[0])};
      var body := FindBody(engine, seen', ctes[0]);
      [(ctes[0], body.ctes)]
        + (if CteBody(ctes[0]).Some? then Descents(engine, seen', CteBody(ctes[0]).value) else [])
        + DescentsLevel(engine, body.seen, ctes[1..])
  }

  function DescentsRest(engine: string, seen: set<string>, cs: seq<Clause>): seq<(Clause, seq<Clause>)>
    decreases ClausesSize(cs), 2
  {
    if cs == [] then []
    else if Searched(cs[0], engine) then
      Descents(engine, seen, Scope(cs[0]).value)
        + DescentsRest(engine, Find(engine, seen, Scope(cs[0]).value).seen, cs[1..])
    else DescentsRest(engine, seen, cs[1..])
  }

  /** In a list, what belongs to a descent stands before the definition. */
  ghost predicate InFront(s: seq<Clause>, descents: seq<(Clause, seq<Clause>)>) {
    forall p, d :: p in descents && d in p.1 ==> Precedes(s, d, p.0)
  }

  lemma {:induction false} PrecedesWithin(a: seq<Clause>, b: seq<Clause>, c: seq<Clause>, d: Clause, x: Clause)
    requires Precedes(b, d, x)
    ensures Precedes(a + b + c, d, x)
  {
    var i, j :| 0 <= i < j < |b| && b[i] == d && b[j] == x;
    var s := a + b + c;
    assert s[|a| + i] == d && s[|a| + j] == x;
  }

  lemma {:induction false} FrontWithin(a: seq<Clause>, b: seq<Clause>, c: seq<Clause>, descents: seq<(Clause, seq<Clause>)>)
    requires InFront(b, descents)
    ensures InFront(a + b + c, descents)
  {
    forall p, d | p in descents && d in p.1 ensures Precedes(a + b + c, d, p.0) {
      PrecedesWithin(a, b, c, d, p.0);
    }
  }

  lemma {:induction false} FrontConcat(s: seq<Clause>, a: seq<(Clause, seq<Clause>)>, b: seq<(Clause, seq<Clause>)>)
    requires InFront(s, a) && InFront(s, b)
    ensures InFront(s, a + b)
  {
    forall p, d | p in a + b && d in p.1 ensures Precedes(s, d, p.0) {
      if p in a {} else { assert p in b; }
    }
  }

  lemma {:induction false} FrontJoin(a: seq<Clause>, da: seq<(Clause, seq<Clause>)>, b: seq<Clause>, db: seq<(Clause, seq<Clause>)>)
    requires InFront(a, da) && InFront(b, db)
    ensures InFront(a + b, da + db)
  {
    hide InFront;
    FrontWithin([], a, b, da);
    FrontWithin(a, b, [], db);
    assert [] + a + b == a + b == a + b + [];
    FrontConcat(a + b, da, db);
  }

  /** The general order, with no assumption on aliases: whatever is first collected
      while the body of a listed definition is searched stands before it. */
  lemma {:induction false} CollectedInsidePrecedes(engine: string, seen: set<string>, cs: seq<Clause>)
    ensures InFront(Find(engine, seen, cs).ctes, Descents(engine, seen, cs))
    decreases ClausesSize(cs), 3
  {
    var ctes := Components(cs, Cte, engine);
    var level := FindLevel(engine, seen, ctes, []);
    var rest := FindRest(engine, level.seen, cs);
    InsideLevel(engine, seen, ctes, []);
    InsideRest(engine, level.seen, cs);
    FrontJoin(level.ctes, DescentsLevel(engine, seen, ctes), rest.ctes, DescentsRest(engine, level.seen, cs));
  }

  lemma {:induction false} InsideLevel(engine: string, seen: set<string>, ctes: seq<Clause>, result: seq<Clause>)
    ensures InFront(FindLevel(engine, seen, ctes, result).ctes, DescentsLevel(engine, seen, ctes))
    decreases ClausesSize(ctes), 2
  {
    hide InFront, Descents;
    if ctes == [] {
      NoDescents(FindLevel(engine, seen, ctes, result).ctes);
    } else if Alias(ctes[0]) in seen {
      InsideLevel(engine, seen, ctes[1..], result);
    } else {
      var cl := ctes[0];
      var seen' := seen + {Alias(cl)};
      var body := FindBody(engine, seen', cl);
      var result' := body.ctes + (result + [cl]);
      InsideLevel(engine, body.seen, ctes[1..], result');
      LevelForm(engine, body.seen, ctes[1..], result');
      var nested, own := Nested(engine, body.seen, ctes[1..]), Own(engine, body.seen, ctes[1..]);
      var s := nested + result' + own;
      var inside := if CteBody(cl).Some? then Descents(engine, seen', CteBody(cl).value) else [];
      if CteBody(cl).Some? {
        CollectedInsidePrecedes(engine, seen', CteBody(cl).value);
        assert nested + body.ctes + ((result + [cl]) + own) == s;
        FrontWithin(nested, body.ctes, (result + [cl]) + own, inside);
      } else {
        NoDescents(s);
      }
      BodyInFront(nested, body.ctes, result, cl, own);
      FrontConcat(s, [(cl, body.ctes)], inside);
      FrontConcat(s, [(cl, body.ctes)] + inside, DescentsLevel(engine, body.seen, ctes[1..]));
    }
  }

  lemma {:induction false} NoDescents(s: seq<Clause>)
    ensures InFront(s, [])
  {
  }

  lemma {:induction false} BodyInFront(nested: seq<Clause>, body: seq<Clause>, result: seq<Clause>, cl: Clause, own: seq<Clause>)
    ensures InFront(nested + (body + (result + [cl])) + own, [(cl, body)])
  {
    var b := body + (result + [cl]);
    forall d | d in body ensures Precedes(nested + b + own, d, cl) {
      var i :| 0 <= i < |body| && body[i] == d;
      assert b[i] == d && b[|b| - 1] == cl;
      PrecedesWithin(nested, b, own, d, cl);
    }
  }

  lemma {:induction false} InsideRest(engine: string, seen: set<string>, cs: seq<Clause>)
    ensures InFront(FindRest(engine, seen, cs).ctes, DescentsRest(engine, seen, cs))
    decreases ClausesSize(cs), 2
  {
    hide InFront, Descents;
    if cs == [] {
      NoDescents([]);
    } else if Searched(cs[0], engine) {
      var inner := Scope(cs[0]).value;
      var here := Find(engine, seen, inner);
      var rest := FindRest(engine, here.seen, cs[1..]);
      CollectedInsidePrecedes(engine, seen, inner);
      InsideRest(engine, here.seen, cs[1..]);
      FrontJoin(here.ctes, Descents(engine, seen, inner), rest.ctes, DescentsRest(engine, here.seen, cs[1..]));
    } else {
      InsideRest(engine, seen, cs[1..]);
      assert [] + FindRest(engine, seen, cs[1..]).ctes == FindRest(engine, seen, cs[1..]).ctes;
    }
  }

  // ----- exactly when the list is in dependency order ------------------------------------------

  /** The aliases that the text of a definition may refer to: those declared in its
      body outside further bodies. */
  function Uses(engine: string, cl: Clause): set<string> {
    if CteBody(cl).Some? then Declared(engine, CteBody(cl).value) else {}
  }

  /** Every alias a definition may refer to is defined before it, or in `before`. */
  ghost predicate OrderedAfter(engine: string, before: set<string>, s: seq<Clause>) {
    forall i :: 0 <= i < |s| ==> Uses(engine, s[i]) <= before + Aliases(s[..i])
  }

  /** No definition that is listed redeclares an alias that is pending: one that was
      collected at an enclosing level, or is being searched, so that it lands behind
      what the search returns. */
  predicate Clear(engine: string, seen: set<string>, pending: set<string>, cs: seq<Clause>)
    decreases ClausesSize(cs), 3
  {
    var ctes := Components(cs, Cte, engine);
    && ClearLevel(engine, seen, pending, ctes, {})
    && ClearRest(engine, FindLevel(engine, seen, ctes, []).seen, pending, cs)
  }

  /** `collected` are the aliases this level collected so far: they are pending for
      the bodies that follow, but not for the definitions of the level itself. */
  predicate ClearLevel(engine: string, seen: set<string>, pending: set<string>, ctes: seq<Clause>, collected: set<string>)
    decreases ClausesSize(ctes), 2
  {
    if ctes == [] then true
    else if Alias(ctes[0]) in seen then ClearLevel(engine, seen, pending, ctes[1..], collected)
    else
      var alias := Alias(ctes[0]);
      var body := FindBody(engine, seen + {alias}, ctes[0]);
      && Uses(engine, ctes[0]) !! pending + {alias}
      && (CteBody(ctes[0]).Some? ==>
            Clear(engine, seen + {alias}, pending + collected + {alias}, CteBody(ctes[0]).value))
      && ClearLevel(engine, body.seen, pending, ctes[1..], collected + {alias} + Aliases(body.ctes))
  }

  predicate ClearRest(engine: string, seen: set<string>, pending: set<string>, cs: seq<Clause>)
    decreases ClausesSize(cs), 2
  {
    if cs == [] then true
    else if Searched(cs[0], engine) then
      && Clear(engine, seen, pending, Scope(cs[0]).value)
      && ClearRest(engine, Find(engine, seen, Scope(cs[0]).value).seen, pending, cs[1..])
    else ClearRest(engine, seen, pending, cs[1..])
  }

  lemma {:induction false} OrderedConcatAfter(engine: string, before: set<string>, a: seq<Clause>, b: seq<Clause>)
    ensures OrderedAfter(engine, before, a + b)
      <==> OrderedAfter(engine, before, a) && OrderedAfter(engine, before + Aliases(a), b)
  {
    hide Uses;
    var s := a + b;
    forall i | 0 <= i < |a| ensures s[i] == a[i] && s[..i] == a[..i] {}
    forall i | 0 <= i < |b| ensures s[|a| + i] == b[i] && Aliases(s[..|a| + i]) == Aliases(a) + Aliases(b[..i]) {
      assert s[..|a| + i] == a + b[..i];
      AliasesConcat(a, b[..i]);
    }
    if OrderedAfter(engine, before, s) {
      forall i | 0 <= i < |a| ensures Uses(engine, a[i]) <= before + Aliases(a[..i]) { assert s[i] == a[i]; }
      forall i | 0 <= i < |b| ensures Uses(engine, b[i]) <= before + Aliases(a) + Aliases(b[..i]) {
        assert Uses(engine, s[|a| + i]) <= before + Aliases(s[..|a| + i]);
      }
    }
    if OrderedAfter(engine, before, a) && OrderedAfter(engine, before + Aliases(a), b) {
      forall i | 0 <= i < |s| ensures Uses(engine, s[i]) <= before + Aliases(s[..i]) {
        if i < |a| {
          assert Uses(engine, a[i]) <= before + Aliases(a[..i]);
        } else {
          assert s[|a| + (i - |a|)] == b[i - |a|];
          assert Uses(engine, b[i - |a|]) <= before + Aliases(a) + Aliases(b[..i - |a|]);
        }
      }
    }
  }

  /** Aliases that no definition of a list refers to make no difference to it. */
  lemma {:induction false} OrderedWeakens(engine: string, before: set<string>, more: set<string>, s: seq<Clause>)
    requires forall cl <- s :: Uses(engine, cl) !! more
    ensures OrderedAfter(engine, before + more, s) <==> OrderedAfter(engine, before, s)
  {
    hide Uses;
    forall i | 0 <= i < |s|
      ensures Uses(engine, s[i]) <= before + more + Aliases(s[..i]) <==> Uses(engine, s[i]) <= before + Aliases(s[..i])
    {
      assert s[i] in s;
    }
    if OrderedAfter(engine, before + more, s) {
      forall i | 0 <= i < |s| ensures Uses(engine, s[i]) <= before + Aliases(s[..i]) {
        assert Uses(engine, s[i]) <= before + more + Aliases(s[..i]);
      }
    }
  }

  /** The exact result: for every clause tree, the search puts every definition
      behind all it may refer to if and only if nothing listed redeclares a pending
      alias. */
  lemma {:induction false} OrderIsExact(engine: string, cs: seq<Clause>)
    ensures OrderedAfter(engine, {}, Find(engine, {}, cs).ctes) <==> Clear(engine, {}, {}, cs)
  {
    OrderedIffClear(engine, {}, {}, cs);
    var nothing: set<string> := {};
    assert nothing - nothing == nothing;
  }

  lemma {:induction false} OrderedIffClear(engine: string, seen: set<string>, pending: set<string>, cs: seq<Clause>)
    requires pending <= seen
    ensures OrderedAfter(engine, seen - pending, Find(engine, seen, cs).ctes) <==> Clear(engine, seen, pending, cs)
    decreases ClausesSize(cs), 3
  {
    var ctes := Components(cs, Cte, engine);
    var level := FindLevel(engine, seen, ctes, []);
    var rest := FindRest(engine, level.seen, cs);
    FindLevelDistinct(engine, seen, seen, ctes, []);
    LevelIffClear(engine, seen, pending, seen, ctes, []);
    RestIffClear(engine, level.seen, pending, cs);
    OrderedConcatAfter(engine, seen - pending, level.ctes, rest.ctes);
    assert level.seen - pending == (seen - pending) + Aliases(level.ctes);
    assert OrderedAfter(engine, seen - pending, []);
    assert Aliases([]) == {};
  }

  lemma {:induction false} LevelIffClear(engine: string, start: set<string>, pending: set<string>, seen: set<string>,
                                         ctes: seq<Clause>, result: seq<Clause>)
    requires pending <= start && Fresh(start, Found(result, seen)) && Closed(engine, result, seen)
    ensures OrderedAfter(engine, start - pending, FindLevel(engine, seen, ctes, result).ctes)
      <==> OrderedAfter(engine, start - pending, result) && ClearLevel(engine, seen, pending, ctes, Aliases(result))
    decreases ClausesSize(ctes), 2
  {
    hide Clear, OrderedAfter, Uses, Find;
    if ctes == [] {
    } else if Alias(ctes[0]) in seen {
      LevelIffClear(engine, start, pending, seen, ctes[1..], result);
    } else {
      var cl := ctes[0];
      var seen' := seen + {Alias(cl)};
      var body := FindBody(engine, seen', cl);
      var result' := body.ctes + (result + [cl]);
      StepKeeps(engine, start, seen, result, cl);
      BodyIffClear(engine, start, pending, seen, result, cl);
      LevelIffClear(engine, start, pending, body.seen, ctes[1..], result');
      StepIffClear(engine, start, pending, seen, result, cl);
      StepAliases(body.ctes, result, cl);
    }
  }

  lemma {:induction false} StepAliases(body: seq<Clause>, result: seq<Clause>, cl: Clause)
    ensures Aliases(body + (result + [cl])) == Aliases(result) + {Alias(cl)} + Aliases(body)
  {
    AliasesConcat(body, result + [cl]);
    AliasesConcat(result, [cl]);
    assert Aliases([cl]) == {Alias(cl)};
  }

  /** One turn of the level keeps what the next one relies on. */
  lemma {:induction false} StepKeeps(engine: string, start: set<string>, seen: set<string>, result: seq<Clause>, cl: Clause)
    requires Fresh(start, Found(result, seen)) && Closed(engine, result, seen) && Alias(cl) !in seen
    ensures var body := FindBody(engine, seen + {Alias(cl)}, cl);
      var result' := body.ctes + (result + [cl]);
      && Fresh(start, Found(result', body.seen)) && Closed(engine, result', body.seen)
      && Fresh(seen + {Alias(cl)}, body) && Uses(engine, cl) <= body.seen
  {
    var seen' := seen + {Alias(cl)};
    var body := FindBody(engine, seen', cl);
    BodyFresh(engine, seen', cl);
    if CteBody(cl).Some? { FindCloses(engine, seen', CteBody(cl).value); }
    hide FindBody, Declared;
    assert Aliases([cl]) == {Alias(cl)};
    FreshConcat(start, Found(result, seen), Found([cl], seen'));
    AliasesConcat(body.ctes, result + [cl]);
    DistinctConcat(body.ctes, result + [cl]);
  }

  /** What a body returns is in order exactly when nothing in it meets what is
      pending around it: the level's result so far and the definition itself. */
  lemma {:induction false} BodyIffClear(engine: string, start: set<string>, pending: set<string>, seen: set<string>,
                                        result: seq<Clause>, cl: Clause)
    requires pending <= start && Fresh(start, Found(result, seen)) && Alias(cl) !in seen
    ensures OrderedAfter(engine, start - pending, FindBody(engine, seen + {Alias(cl)}, cl).ctes)
      <==> (CteBody(cl).Some? ==>
              Clear(engine, seen + {Alias(cl)}, pending + Aliases(result) + {Alias(cl)}, CteBody(cl).value))
    decreases ClauseSize(cl), 1
  {
    var seen', pending' := seen + {Alias(cl)}, pending + Aliases(result) + {Alias(cl)};
    assert seen' - pending' == start - pending;
    if CteBody(cl).Some? {
      OrderedIffClear(engine, seen', pending', CteBody(cl).value);
    }
  }

  lemma {:induction false} StepIffClear(engine: string, start: set<string>, pending: set<string>, seen: set<string>,
                                        result: seq<Clause>, cl: Clause)
    requires pending <= start && Fresh(start, Found(result, seen)) && Closed(engine, result, seen) && Alias(cl) !in seen
    ensures var body := FindBody(engine, seen + {Alias(cl)}, cl);
      OrderedAfter(engine, start - pending, body.ctes + (result + [cl]))
      <==> OrderedAfter(engine, start - pending, body.ctes) && OrderedAfter(engine, start - pending, result)
           && Uses(engine, cl) !! pending + {Alias(cl)}
  {
    hide FindBody, Uses, Closed, OrderedAfter, Aliases, Distinct;
    var seen', before := seen + {Alias(cl)}, start - pending;
    var body := FindBody(engine, seen', cl);
    StepKeeps(engine, start, seen, result, cl);
    OrderedConcatAfter(engine, before, body.ctes, result + [cl]);
    OrderedConcatAfter(engine, before + Aliases(body.ctes), result, [cl]);
    ClosedUses(engine, result, seen);
    OrderedWeakens(engine, before, Aliases(body.ctes), result);
    var known := before + Aliases(body.ctes) + Aliases(result);
    LastOrdered(engine, known, cl);
    assert body.seen == known + (pending + {Alias(cl)});
    assert known !! pending + {Alias(cl)};
    UsesSplit(Uses(engine, cl), known, pending + {Alias(cl)});
  }

  lemma {:induction false} UsesSplit(uses: set<string>, known: set<string>, other: set<string>)
    requires uses <= known + other && known !! other
    ensures uses <= known <==> uses !! other
  {
  }

  lemma {:induction false} ClosedUses(engine: string, result: seq<Clause>, seen: set<string>)
    requires Closed(engine, result, seen)
    ensures forall r <- result :: Uses(engine, r) <= seen
  {
  }

  lemma {:induction false} LastOrdered(engine: string, before: set<string>, cl: Clause)
    ensures OrderedAfter(engine, before, [cl]) <==> Uses(engine, cl) <= before
  {
    hide Uses;
    assert [cl][..0] == [] && Aliases([]) == {} && [cl][0] == cl;
    assert before + {} == before;
    if Uses(engine, cl) <= before {
      forall i | 0 <= i < |[cl]| ensures Uses(engine, [cl][i]) <= before + Aliases([cl][..i]) { assert i == 0; }
    }
  }

  lemma {:induction false} RestIffClear(engine: string, seen: set<string>, pending: set<string>, cs: seq<Clause>)
    requires pending <= seen
    ensures OrderedAfter(engine, seen - pending, FindRest(engine, seen, cs).ctes) <==> ClearRest(engine, seen, pending, cs)
    decreases ClausesSize(cs), 2
  {
    hide Clear, Find;
    if cs == [] {
    } else if Searched(cs[0], engine) {
      var inner := Scope(cs[0]).value;
      var here := Find(engine, seen, inner);
      FindDistinct(engine, seen, inner);
      OrderedIffClear(engine, seen, pending, inner);
      RestIffClear(engine, here.seen, pending, cs[1..]);
      var rest := FindRest(engine, here.seen, cs[1..]);
      OrderedConcatAfter(engine, seen - pending, here.ctes, rest.ctes);
      assert here.seen - pending == (seen - pending) + Aliases(here.ctes);
    } else {
      RestIffClear(engine, seen, pending, cs[1..]);
      assert [] + FindRest(engine, seen, cs[1..]).ctes == FindRest(engine, seen, cs[1..]).ctes;
    }
  }

  // ----- what the exact condition covers ---------------------------------------------------------

  /** Unique aliases are enough ... */
  lemma {:induction false} UniqueAliasesAreClear(engine: string, cs: seq<Clause>)
    requires Distinct(All(engine, cs))
    ensures Clear(engine, {}, {}, cs)
  {
    FindOrders(engine, {}, cs);
    var s := Find(engine, {}, cs).ctes;
    hide Clear, Find, All, Distinct;
    forall i | 0 <= i < |s| ensures Uses(engine, s[i]) <= {} + Aliases(s[..i]) {
      UsesInBody(engine, s[i]);
    }
    OrderIsExact(engine, cs);
  }

  lemma {:induction false} UsesInBody(engine: string, cl: Clause)
    ensures Uses(engine, cl) <= Aliases(AllBody(engine, cl))
  {
    if CteBody(cl).Some? { DeclaredInAll(engine, CteBody(cl).value); }
  }

  lemma {:induction false} DeclaredInAll(engine: string, cs: seq<Clause>)
    ensures Declared(engine, cs) <= Aliases(Components(cs, Cte, engine)) + Aliases(AllRest(engine, cs)) <= Aliases(All(engine, cs))
    decreases ClausesSize(cs), 3
  {
    var ctes := Components(cs, Cte, engine);
    DeclaredSomewhere(engine, cs);
    LevelInAll(engine, ctes);
    AliasesConcat(AllLevel(engine, ctes), AllRest(engine, cs));
  }

  lemma {:induction false} LevelInAll(engine: string, ctes: seq<Clause>)
    ensures Aliases(ctes) <= Aliases(AllLevel(engine, ctes))
    decreases ctes
  {
    if ctes != [] {
      LevelInAll(engine, ctes[1..]);
      AliasesConcat([ctes[0]], ctes[1..]);
      AliasesConcat([ctes[0]] + AllBody(engine, ctes[0]), AllLevel(engine, ctes[1..]));
      AliasesConcat([ctes[0]], AllBody(engine, ctes[0]));
      assert [ctes[0]] + ctes[1..] == ctes;
    }
  }

  lemma {:induction false} DeclaredSomewhere(engine: string, cs: seq<Clause>)
    ensures Declared(engine, cs) <= Aliases(Components(cs, Cte, engine)) + Aliases(AllRest(engine, cs))
    decreases ClausesSize(cs), 2
  {
    if cs != [] {
      DeclaredSomewhere(engine, cs[1..]);
      var tail, rest := Components(cs[1..], Cte, engine), AllRest(engine, cs[1..]);
      if Searched(cs[0], engine) {
        DeclaredInAll(engine, Scope(cs[0]).value);
        hide Scope, All;
        AliasesConcat(All(engine, Scope(cs[0]).value), rest);
      } else {
        hide Scope, All;
        AliasesConcat([cs[0]], tail);
        assert Aliases([cs[0]]) == {Alias(cs[0])};
        assert [] + rest == rest;
      }
    }
  }

  /** Nothing is defined inside the body of a definition. */
  predicate DefinesNothing(engine: string, cl: Clause) { Uses(engine, cl) == {} }

  /** ... and so is the absence of nesting: sibling scopes may then define the same
      alias as often as they like. */
  lemma {:induction false} SiblingsMayRepeat(engine: string, cs: seq<Clause>)
    requires forall cl <- All(engine, cs) :: DefinesNothing(engine, cl)
    ensures Clear(engine, {}, {}, cs)
  {
    hide Clear, Uses, Find, All;
    FindWithin(engine, {}, cs);
    var s := Find(engine, {}, cs).ctes;
    forall i | 0 <= i < |s| ensures Uses(engine, s[i]) <= {} + Aliases(s[..i]) {
      assert DefinesNothing(engine, s[i]);
    }
    OrderIsExact(engine, cs);
  }

  /** A nested redeclaration of a pending alias is what the condition excludes. */
  lemma {:induction false} NestedRedeclarationIsNotClear(a: Clause, again: Clause, w: Clause, x: Clause)
    requires a.body.RawCte? && again.body.RawCte? && a.body.alias == again.body.alias == "a"
    requires w.body.QueryCte? && w.body.alias == "w" && w.body.query.clauses == [again]
    requires x.body.QueryCte? && x.body.alias == "x" && x.body.query.clauses == [w]
    ensures !Clear("", {}, {}, [a, x])
  {
    hide Clear, Find, Uses;
    OrderNeedsUniqueAliases(a, again, w, x);
    OrderIsExact("", [a, x]);
    UsesOfOne(w, again);
    var s := [w, a, x];
    assert s[..0] == [] && "a" in Uses("", s[0]) && "a" !in {} + Aliases(s[..0]);
  }

  lemma {:induction false} UsesOfOne(w: Clause, inner: Clause)
    requires w.body.QueryCte? && w.body.query.clauses == [inner] && inner.body.RawCte?
    ensures inner.body.alias in Uses("", w)
  {
    assert CteBody(w) == Some([inner]) && Tag(inner) == Cte && Alias(inner) == inner.body.alias;
    assert [inner][0] == inner;
  }
}
