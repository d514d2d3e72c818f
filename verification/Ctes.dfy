/** Collection of the CTEs of a query tree: deduplicated by alias, nested
    definitions before the definitions that contain them. */
module Ctes {
  import opened Ast

  function Alias(cl: Clause): string {
    match cl.body
    case QueryCte(alias, _) => alias
    case RawCte(alias, _) => alias
    case TableCte(alias, _, _) => alias
    case _ => ""
  }

  /** The clause list of a CTE's body, when it is a query. */
  function CteBody(cl: Clause): (r: Option<seq<Clause>>)
    ensures r.Some? ==> ClausesSize(r.value) < ClauseSize(cl)
  {
    match cl.body
    case QueryCte(_, q) => Some(q.clauses)
    case _ => None
  }

  /** The clause list of the scope a clause carries: a subquery, a join or a
      condition group (no clause carries two of them). */
  function Scope(cl: Clause): (r: Option<seq<Clause>>)
    ensures r.Some? ==> ClausesSize(r.value) < ClauseSize(cl)
  {
    match SubQueryOf(cl)
    case Some(q) => Some(q.clauses)
    case None =>
      match JoinOf(cl)
      case Some(cs) => Some(cs)
      case None =>
        match GroupOf(cl)
        case Some(g) => Some(g.clauses)
        case None => None
  }

  /** Whether the search descends into a clause outside the CTE section. */
  predicate Searched(cl: Clause, engine: string) {
    Tag(cl) != Cte && Visible(cl, engine) && Scope(cl).Some?
  }

  /** The collected clauses and the aliases seen so far. */
  datatype Found = Found(ctes: seq<Clause>, seen: set<string>)

  function Find(engine: string, seen: set<string>, cs: seq<Clause>): Found
    decreases ClausesSize(cs), 3
  {
    var level := FindLevel(engine, seen, Components(cs, Cte, engine), []);
    var rest := FindRest(engine, level.seen, cs);
    Found(level.ctes + rest.ctes, rest.seen)
  }

  /** The definitions of one level; `result` is what the level collected so far. */
  function FindLevel(engine: string, seen: set<string>, ctes: seq<Clause>, result: seq<Clause>): Found
    decreases ClausesSize(ctes), 2
  {
    if ctes == [] then Found(result, seen)
    else if Alias(ctes[0]) in seen then FindLevel(engine, seen, ctes[1..], result)
    else
      var body := FindBody(engine, seen + {Alias(ctes[0])}, ctes[0]);
      FindLevel(engine, body.seen, ctes[1..], body.ctes + (result + [ctes[0]]))
  }

  function FindBody(engine: string, seen: set<string>, cl: Clause): Found
    decreases ClauseSize(cl), 1
  {
    if CteBody(cl).Some? then Find(engine, seen, CteBody(cl).value) else Found([], seen)
  }

  function FindRest(engine: string, seen: set<string>, cs: seq<Clause>): Found
    decreases ClausesSize(cs), 2
  {
    if cs == [] then Found([], seen)
    else
      var here := if Searched(cs[0], engine) then Find(engine, seen, Scope(cs[0]).value) else Found([], seen);
      var rest := FindRest(engine, here.seen, cs[1..]);
      Found(here.ctes + rest.ctes, rest.seen)
  }

  /** One turn of the level loop. */
  lemma {:induction false} FindLevelStep(engine: string, seen: set<string>, ctes: seq<Clause>, i: nat, result: seq<Clause>)
    requires i < |ctes|
    ensures FindLevel(engine, seen, ctes[i..], result) ==
      if Alias(ctes[i]) in seen then FindLevel(engine, seen, ctes[i + 1..], result)
      else
        var body := FindBody(engine, seen + {Alias(ctes[i])}, ctes[i]);
        FindLevel(engine, body.seen, ctes[i + 1..], body.ctes + (result + [ctes[i]]))
  {
    assert ctes[i..][1..] == ctes[i + 1..];
  }

  /** One turn of the loop over the other clauses. */
  lemma {:induction false} FindRestStep(engine: string, seen: set<string>, cs: seq<Clause>, i: nat)
    requires i < |cs|
    ensures
      var here := if Searched(cs[i], engine) then Find(engine, seen, Scope(cs[i]).value) else Found([], seen);
      var rest := FindRest(engine, here.seen, cs[i + 1..]);
      FindRest(engine, seen, cs[i..]) == Found(here.ctes + rest.ctes, rest.seen)
  {
    assert cs[i..][1..] == cs[i + 1..];
  }

  lemma {:induction false} FindIs(engine: string, seen: set<string>, cs: seq<Clause>)
    ensures var level := FindLevel(engine, seen, Components(cs, Cte, engine), []);
      var rest := FindRest(engine, level.seen, cs);
      Find(engine, seen, cs) == Found(level.ctes + rest.ctes, rest.seen)
  {
  }

  lemma {:induction false} FindBodyIs(engine: string, seen: set<string>, cl: Clause)
    ensures FindBody(engine, seen, cl) ==
      if CteBody(cl).Some? then Find(engine, seen, CteBody(cl).value) else Found([], seen)
  {
  }

  lemma {:induction false} FindEnds(engine: string, seen: set<string>, result: seq<Clause>)
    ensures FindLevel(engine, seen, [], result) == Found(result, seen)
    ensures FindRest(engine, seen, []) == Found([], seen)
  {
  }

  /** The traversal as the compiler runs it: the seen set is state, the result is
      built in loops. */
  class Finder {
    const engine: string
    var seen: set<string>

    constructor (engine: string)
      ensures this.engine == engine && seen == {}
    {
      this.engine := engine;
      seen := {};
    }

    method FindClauses(clauses: seq<Clause>) returns (result: seq<Clause>)
      modifies this`seen
      ensures Found(result, seen) == Find(engine, old(seen), clauses)
      decreases ClausesSize(clauses)
    {
      FindIs(engine, seen, clauses);
      hide Find, FindLevel, FindRest, FindBody, Alias;
      result := [];
      var ctes := Components(clauses, Cte, engine);
      var i := 0;
      assert ctes[0..] == ctes;
      while i < |ctes|
        invariant 0 <= i <= |ctes|
        invariant FindLevel(engine, seen, ctes[i..], result) == FindLevel(engine, old(seen), ctes, [])
      {
        var cl := ctes[i];
        SizeOfMember(ctes, i);
        FindLevelStep(engine, seen, ctes, i, result);
        FindBodyIs(engine, seen + {Alias(cl)}, cl);
        if Alias(cl) !in seen {
          seen := seen + {Alias(cl)};
          result := result + [cl];
          if CteBody(cl).Some? {
            var nested := FindClauses(CteBody(cl).value);
            result := nested + result;
          } else {
            assert [] + result == result;
          }
        }
        i := i + 1;
      }
      assert ctes[i..] == [];
      FindEnds(engine, seen, result);
      ghost var level := Found(result, seen);
      ghost var rest := FindRest(engine, seen, clauses);
      i := 0;
      assert clauses[0..] == clauses;
      while i < |clauses|
        invariant 0 <= i <= |clauses|
        invariant result + FindRest(engine, seen, clauses[i..]).ctes == level.ctes + rest.ctes
        invariant FindRest(engine, seen, clauses[i..]).seen == rest.seen
      {
        var cl := clauses[i];
        SizeOfMember(clauses, i);
        FindRestStep(engine, seen, clauses, i);
        if Searched(cl, engine) {
          var nested := FindClauses(Scope(cl).value);
          result := result + nested;
        } else {
          assert [] + FindRest(engine, seen, clauses[i + 1..]).ctes == FindRest(engine, seen, clauses[i + 1..]).ctes;
        }
        i := i + 1;
      }
      assert clauses[i..] == [];
      FindEnds(engine, seen, result);
      assert result + [] == result;
    }
  }

  // ----- distinct aliases --------------------------------------------------------------

  function Aliases(cs: seq<Clause>): set<string> { set cl <- cs :: Alias(cl) }

  ghost predicate Distinct(cs: seq<Clause>) {
    forall i, j :: 0 <= i < j < |cs| ==> Alias(cs[i]) != Alias(cs[j])
  }

  /** What one step of the search promises: everything new, nothing twice. */
  ghost predicate Fresh(seen: set<string>, f: Found) {
    Distinct(f.ctes) && Aliases(f.ctes) !! seen && f.seen == seen + Aliases(f.ctes)
  }

  lemma {:induction false} FreshConcat(seen: set<string>, a: Found, b: Found)
    requires Fresh(seen, a) && Fresh(a.seen, b)
    ensures Fresh(seen, Found(a.ctes + b.ctes, b.seen))
  {
    AliasesConcat(a.ctes, b.ctes);
    DistinctConcat(a.ctes, b.ctes);
  }

  lemma {:induction false} AliasesConcat(a: seq<Clause>, b: seq<Clause>)
    ensures Aliases(a + b) == Aliases(a) + Aliases(b)
  {
  }

  lemma {:induction false} DistinctConcat(a: seq<Clause>, b: seq<Clause>)
    requires Distinct(a) && Distinct(b) && Aliases(a) !! Aliases(b)
    ensures Distinct(a + b)
  {
    forall i, j | 0 <= i < j < |a + b| ensures Alias((a + b)[i]) != Alias((a + b)[j]) {
      if i < |a| <= j {
        assert Alias(a[i]) in Aliases(a) && Alias(b[j - |a|]) in Aliases(b);
      }
    }
  }

  /** The aliases of the WITH list are pairwise distinct, and the search only ever
      adds aliases it had not seen. */
  lemma {:induction false} FindDistinct(engine: string, seen: set<string>, cs: seq<Clause>)
    ensures Fresh(seen, Find(engine, seen, cs))
    decreases ClausesSize(cs), 3
  {
    var ctes := Components(cs, Cte, engine);
    FindLevelDistinct(engine, seen, seen, ctes, []);
    var level := FindLevel(engine, seen, ctes, []);
    FindRestDistinct(engine, level.seen, cs);
    FreshConcat(seen, level, FindRest(engine, level.seen, cs));
  }

  lemma {:induction false} FindLevelDistinct(engine: string, start: set<string>, seen: set<string>, ctes: seq<Clause>, result: seq<Clause>)
    requires Fresh(start, Found(result, seen))
    ensures Fresh(start, FindLevel(engine, seen, ctes, result))
    decreases ClausesSize(ctes), 2
  {
    if ctes != [] {
      if Alias(ctes[0]) in seen {
        FindLevelDistinct(engine, start, seen, ctes[1..], result);
      } else {
        var cl := ctes[0];
        var seen' := seen + {Alias(cl)};
        assert Aliases([cl]) == {Alias(cl)};
        FreshConcat(start, Found(result, seen), Found([cl], seen'));
        var body := FindBody(engine, seen', cl);
        if CteBody(cl).Some? { FindDistinct(engine, seen', CteBody(cl).value); }
        AliasesConcat(body.ctes, result + [cl]);
        DistinctConcat(body.ctes, result + [cl]);
        FindLevelDistinct(engine, start, body.seen, ctes[1..], body.ctes + (result + [cl]));
      }
    }
  }

  lemma {:induction false} FindRestDistinct(engine: string, seen: set<string>, cs: seq<Clause>)
    ensures Fresh(seen, FindRest(engine, seen, cs))
    decreases ClausesSize(cs), 2
  {
    if cs != [] {
      var here := if Searched(cs[0], engine) then Find(engine, seen, Scope(cs[0]).value) else Found([], seen);
      if Searched(cs[0], engine) { FindDistinct(engine, seen, Scope(cs[0]).value); }
      FindRestDistinct(engine, here.seen, cs[1..]);
      FreshConcat(seen, here, FindRest(engine, here.seen, cs[1..]));
    }
  }

  // ----- first definition wins -----------------------------------------------------------

  /** Every CTE clause the search looks at, in the order it reaches them, the
      skipped duplicates included. */
  function Reached(engine: string, seen: set<string>, cs: seq<Clause>): seq<Clause>
    decreases ClausesSize(cs), 3
  {
    var ctes := Components(cs, Cte, engine);
    ReachedLevel(engine, seen, ctes)
      + ReachedRest(engine, FindLevel(engine, seen, ctes, []).seen, cs)
  }

  function ReachedLevel(engine: string, seen: set<string>, ctes: seq<Clause>): seq<Clause>
    decreases ClausesSize(ctes), 2
  {
    if ctes == [] then []
    else if Alias(ctes[0]) in seen then [ctes[0]] + ReachedLevel(engine, seen, ctes[1..])
    else
      var seen' := seen + {Alias(ctes[0])};
      [ctes[0]]
        + (if CteBody(ctes[0]).Some? then Reached(engine, seen', CteBody(ctes[0]).value) else [])
        + ReachedLevel(engine, FindBody(engine, seen', ctes[0]).seen, ctes[1..])
  }

  function ReachedRest(engine: string, seen: set<string>, cs: seq<Clause>): seq<Clause>
    decreases ClausesSize(cs), 2
  {
    if cs == [] then []
    else if Searched(cs[0], engine) then
      Reached(engine, seen, Scope(cs[0]).value)
        + ReachedRest(engine, Find(engine, seen, Scope(cs[0]).value).seen, cs[1..])
    else ReachedRest(engine, seen, cs[1..])
  }

  /** The first clause of each alias, for aliases outside `seen`. */
  function Firsts(seen: set<string>, cs: seq<Clause>): seq<Clause>
    decreases cs
  {
    if cs == [] then []
    else if Alias(cs[0]) in seen then Firsts(seen, cs[1..])
    else [cs[0]] + Firsts(seen + {Alias(cs[0])}, cs[1..])
  }

  lemma {:induction false} FirstsConcat(seen: set<string>, a: seq<Clause>, b: seq<Clause>)
    ensures Firsts(seen, a + b) == Firsts(seen, a) + Firsts(seen + Aliases(Firsts(seen, a)), b)
    decreases a
  {
    if a == [] {
      assert a + b == b;
      assert seen + Aliases(Firsts(seen, a)) == seen;
    } else {
      assert (a + b)[1..] == a[1..] + b;
      if Alias(a[0]) in seen {
        FirstsConcat(seen, a[1..], b);
      } else {
        var seen' := seen + {Alias(a[0])};
        FirstsConcat(seen', a[1..], b);
        AliasesConcat([a[0]], Firsts(seen', a[1..]));
        assert Aliases([a[0]]) == {Alias(a[0])};
        assert seen + Aliases(Firsts(seen, a)) == seen' + Aliases(Firsts(seen', a[1..]));
      }
    }
  }

  /** The collected clauses are exactly the first definition reached of every
      alias; the seen set grows by exactly their aliases. */
  ghost predicate FirstWins(seen: set<string>, f: Found, reached: seq<Clause>) {
    multiset(f.ctes) == multiset(Firsts(seen, reached)) && f.seen == seen + Aliases(Firsts(seen, reached))
  }

  lemma {:induction false} FirstWinsConcat(seen: set<string>, a: Found, ra: seq<Clause>, b: Found, rb: seq<Clause>)
    requires FirstWins(seen, a, ra) && FirstWins(a.seen, b, rb)
    ensures FirstWins(seen, Found(a.ctes + b.ctes, b.seen), ra + rb)
  {
    FirstsConcat(seen, ra, rb);
    AliasesConcat(Firsts(seen, ra), Firsts(a.seen, rb));
  }

  lemma {:induction false} FirstWinsNothing(seen: set<string>)
    ensures FirstWins(seen, Found([], seen), [])
  {
  }

  lemma {:induction false} FirstWinsAgain(start: set<string>, f: Found, before: seq<Clause>, cl: Clause)
    requires FirstWins(start, f, before) && Alias(cl) in f.seen
    ensures FirstWins(start, f, before + [cl])
  {
    FirstsConcat(start, before, [cl]);
    assert Firsts(f.seen, [cl]) == [];
    assert Firsts(start, before) + [] == Firsts(start, before);
  }

  lemma {:induction false} FirstWinsStep(start: set<string>, seen: set<string>, result: seq<Clause>, before: seq<Clause>,
                      cl: Clause, body: Found, inside: seq<Clause>)
    requires FirstWins(start, Found(result, seen), before)
    requires Alias(cl) !in seen && FirstWins(seen + {Alias(cl)}, body, inside)
    ensures FirstWins(start, Found(body.ctes + (result + [cl]), body.seen), before + [cl] + inside)
  {
    var own := Found([cl], seen + {Alias(cl)});
    assert Firsts(seen, [cl]) == [cl] && Aliases([cl]) == {Alias(cl)};
    FirstWinsConcat(start, Found(result, seen), before, own, [cl]);
    FirstWinsConcat(start, Found(result + [cl], own.seen), before + [cl], body, inside);
    assert multiset(body.ctes + (result + [cl])) == multiset((result + [cl]) + body.ctes);
  }

  lemma {:induction false} FirstDefinitionWins(engine: string, seen: set<string>, cs: seq<Clause>)
    ensures FirstWins(seen, Find(engine, seen, cs), Reached(engine, seen, cs))
    decreases ClausesSize(cs), 3
  {
    var ctes := Components(cs, Cte, engine);
    FirstWinsLevel(engine, seen, seen, ctes, [], []);
    assert [] + ReachedLevel(engine, seen, ctes) == ReachedLevel(engine, seen, ctes);
    var level := FindLevel(engine, seen, ctes, []);
    FirstWinsRest(engine, level.seen, cs);
    FirstWinsConcat(seen, level, ReachedLevel(engine, seen, ctes),
                    FindRest(engine, level.seen, cs), ReachedRest(engine, level.seen, cs));
  }

  lemma {:induction false} FirstWinsLevel(engine: string, start: set<string>, seen: set<string>, ctes: seq<Clause>,
                                          result: seq<Clause>, before: seq<Clause>)
    requires FirstWins(start, Found(result, seen), before)
    ensures FirstWins(start, FindLevel(engine, seen, ctes, result), before + ReachedLevel(engine, seen, ctes))
    decreases ClausesSize(ctes), 2
  {
    hide FirstWins;
    if ctes == [] {
      assert before + [] == before;
    } else if Alias(ctes[0]) in seen {
      var cl := ctes[0];
      FirstWinsAgain(start, Found(result, seen), before, cl);
      FirstWinsLevel(engine, start, seen, ctes[1..], result, before + [cl]);
      var tail := ReachedLevel(engine, seen, ctes[1..]);
      assert before + [cl] + tail == before + ([cl] + tail);
    } else {
      var cl := ctes[0];
      var seen' := seen + {Alias(cl)};
      var body := FindBody(engine, seen', cl);
      var inside := if CteBody(cl).Some? then Reached(engine, seen', CteBody(cl).value) else [];
      if CteBody(cl).Some? {
        FirstDefinitionWins(engine, seen', CteBody(cl).value);
      } else {
        FirstWinsNothing(seen');
      }
      FirstWinsStep(start, seen, result, before, cl, body, inside);
      FirstWinsLevel(engine, start, body.seen, ctes[1..], body.ctes + (result + [cl]), before + [cl] + inside);
      var tail := ReachedLevel(engine, body.seen, ctes[1..]);
      assert before + [cl] + inside + tail == before + ([cl] + inside + tail);
      assert ReachedLevel(engine, seen, ctes) == [cl] + inside + tail;
    }
  }

  lemma {:induction false} FirstWinsRest(engine: string, seen: set<string>, cs: seq<Clause>)
    ensures FirstWins(seen, FindRest(engine, seen, cs), ReachedRest(engine, seen, cs))
    decreases ClausesSize(cs), 2
  {
    if cs != [] {
      if Searched(cs[0], engine) {
        var inner := Scope(cs[0]).value;
        var here := Find(engine, seen, inner);
        FirstDefinitionWins(engine, seen, inner);
        FirstWinsRest(engine, here.seen, cs[1..]);
        FirstWinsConcat(seen, here, Reached(engine, seen, inner),
                        FindRest(engine, here.seen, cs[1..]), ReachedRest(engine, here.seen, cs[1..]));
      } else {
        FirstWinsRest(engine, seen, cs[1..]);
        assert [] + FindRest(engine, seen, cs[1..]).ctes == FindRest(engine, seen, cs[1..]).ctes;
      }
    }
  }

  // ----- closure -----------------------------------------------------------------------------

  /** The aliases declared in a scope, or in a scope it embeds outside its CTE
      bodies: what the text of that scope may refer to. */
  function Declared(engine: string, cs: seq<Clause>): set<string>
    decreases ClausesSize(cs)
  {
    if cs == [] then {}
    else
      SizeOfMember(cs, 0);
      (if Tag(cs[0]) == Cte && Visible(cs[0], engine) then {Alias(cs[0])}
       else if Searched(cs[0], engine) then Declared(engine, Scope(cs[0]).value) else {})
      + Declared(engine, cs[1..])
  }

  /** Every alias declared in the body of a listed definition is seen. */
  ghost predicate Closed(engine: string, ctes: seq<Clause>, seen: set<string>) {
    forall cl <- ctes :: CteBody(cl).Some? ==> Declared(engine, CteBody(cl).value) <= seen
  }

  /** Every alias declared in the query, or in the body of any collected
      definition, has a definition in the list. */
  lemma {:induction false} FindCloses(engine: string, seen: set<string>, cs: seq<Clause>)
    ensures var f := Find(engine, seen, cs);
      Declared(engine, cs) <= f.seen && Closed(engine, f.ctes, f.seen)
    decreases ClausesSize(cs), 3
  {
    var ctes := Components(cs, Cte, engine);
    var level := FindLevel(engine, seen, ctes, []);
    FindLevelCloses(engine, seen, ctes, []);
    FindRestCloses(engine, level.seen, cs);
  }

  lemma {:induction false} FindLevelCloses(engine: string, seen: set<string>, ctes: seq<Clause>, result: seq<Clause>)
    requires Closed(engine, result, seen)
    ensures var f := FindLevel(engine, seen, ctes, result);
      seen <= f.seen && Aliases(ctes) <= f.seen && Closed(engine, f.ctes, f.seen)
    decreases ClausesSize(ctes), 2
  {
    if ctes != [] {
      AliasesConcat([ctes[0]], ctes[1..]);
      assert [ctes[0]] + ctes[1..] == ctes && Aliases([ctes[0]]) == {Alias(ctes[0])};
      if Alias(ctes[0]) in seen {
        FindLevelCloses(engine, seen, ctes[1..], result);
      } else {
        var seen' := seen + {Alias(ctes[0])};
        var body := FindBody(engine, seen', ctes[0]);
        if CteBody(ctes[0]).Some? {
          FindCloses(engine, seen', CteBody(ctes[0]).value);
          FindDistinct(engine, seen', CteBody(ctes[0]).value);
        }
        FindLevelCloses(engine, body.seen, ctes[1..], body.ctes + (result + [ctes[0]]));
      }
    }
  }

  lemma {:induction false} FindRestCloses(engine: string, seen: set<string>, cs: seq<Clause>)
    requires Aliases(Components(cs, Cte, engine)) <= seen
    ensures var f := FindRest(engine, seen, cs);
      seen <= f.seen && Declared(engine, cs) <= f.seen && Closed(engine, f.ctes, f.seen)
    decreases ClausesSize(cs), 2
  {
    if cs != [] {
      var tail := Components(cs[1..], Cte, engine);
      assert forall cl <- tail :: cl in Components(cs, Cte, engine);
      var here := if Searched(cs[0], engine) then Find(engine, seen, Scope(cs[0]).value) else Found([], seen);
      if Searched(cs[0], engine) {
        FindCloses(engine, seen, Scope(cs[0]).value);
        FindDistinct(engine, seen, Scope(cs[0]).value);
      } else if Tag(cs[0]) == Cte && Visible(cs[0], engine) {
        assert cs[0] in Components(cs, Cte, engine);
      }
      FindRestCloses(engine, here.seen, cs[1..]);
    }
  }

  // ----- topological order ----------------------------------------------------------------------

  /** All visible CTE clauses of a scope, at any depth: through subqueries, joins,
      groups and the bodies of other CTEs. */
  function All(engine: string, cs: seq<Clause>): seq<Clause>
    decreases ClausesSize(cs), 3
  {
    AllLevel(engine, Components(cs, Cte, engine)) + AllRest(engine, cs)
  }

  function AllLevel(engine: string, ctes: seq<Clause>): seq<Clause>
    decreases ClausesSize(ctes), 2
  {
    if ctes == [] then []
    else [ctes[0]] + AllBody(engine, ctes[0]) + AllLevel(engine, ctes[1..])
  }

  function AllBody(engine: string, cl: Clause): seq<Clause>
    decreases ClauseSize(cl), 1
  {
    if CteBody(cl).Some? then All(engine, CteBody(cl).value) else []
  }

  function AllRest(engine: string, cs: seq<Clause>): seq<Clause>
    decreases ClausesSize(cs), 2
  {
    if cs == [] then []
    else
      (if Searched(cs[0], engine) then All(engine, Scope(cs[0]).value) else []) + AllRest(engine, cs[1..])
  }

  lemma {:induction false} AllTagged(engine: string, cs: seq<Clause>)
    ensures forall cl <- All(engine, cs) :: Tag(cl) == Cte && Visible(cl, engine)
    decreases ClausesSize(cs), 3
  {
    AllLevelTagged(engine, Components(cs, Cte, engine));
    AllRestTagged(engine, cs);
  }

  lemma {:induction false} AllLevelTagged(engine: string, ctes: seq<Clause>)
    requires forall cl <- ctes :: Tag(cl) == Cte && Visible(cl, engine)
    ensures forall cl <- AllLevel(engine, ctes) :: Tag(cl) == Cte && Visible(cl, engine)
    decreases ClausesSize(ctes), 2
  {
    if ctes != [] {
      if CteBody(ctes[0]).Some? { AllTagged(engine, CteBody(ctes[0]).value); }
      AllLevelTagged(engine, ctes[1..]);
    }
  }

  lemma {:induction false} AllRestTagged(engine: string, cs: seq<Clause>)
    ensures forall cl <- AllRest(engine, cs) :: Tag(cl) == Cte && Visible(cl, engine)
    decreases ClausesSize(cs), 2
  {
    if cs != [] {
      if Searched(cs[0], engine) { AllTagged(engine, Scope(cs[0]).value); }
      AllRestTagged(engine, cs[1..]);
    }
  }

  /** Whatever the aliases, only clauses of the tree are collected. */
  lemma {:induction false} FindWithin(engine: string, seen: set<string>, cs: seq<Clause>)
    ensures forall cl <- Find(engine, seen, cs).ctes :: cl in All(engine, cs)
    decreases ClausesSize(cs), 3
  {
    FindLevelWithin(engine, seen, Components(cs, Cte, engine), []);
    FindRestWithin(engine, FindLevel(engine, seen, Components(cs, Cte, engine), []).seen, cs);
  }

  lemma {:induction false} FindLevelWithin(engine: string, seen: set<string>, ctes: seq<Clause>, result: seq<Clause>)
    ensures forall cl <- FindLevel(engine, seen, ctes, result).ctes :: cl in result || cl in AllLevel(engine, ctes)
    decreases ClausesSize(ctes), 2
  {
    if ctes != [] {
      if Alias(ctes[0]) in seen {
        FindLevelWithin(engine, seen, ctes[1..], result);
      } else {
        var seen' := seen + {Alias(ctes[0])};
        var body := FindBody(engine, seen', ctes[0]);
        if CteBody(ctes[0]).Some? { FindWithin(engine, seen', CteBody(ctes[0]).value); }
        assert forall cl <- body.ctes :: cl in AllBody(engine, ctes[0]);
        var result' := body.ctes + (result + [ctes[0]]);
        FindLevelWithin(engine, body.seen, ctes[1..], result');
        assert AllLevel(engine, ctes) == [ctes[0]] + AllBody(engine, ctes[0]) + AllLevel(engine, ctes[1..]);
        assert ctes[0] in AllLevel(engine, ctes);
      }
    }
  }

  lemma {:induction false} FindRestWithin(engine: string, seen: set<string>, cs: seq<Clause>)
    ensures forall cl <- FindRest(engine, seen, cs).ctes :: cl in AllRest(engine, cs)
    decreases ClausesSize(cs), 2
  {
    if cs != [] {
      var here := if Searched(cs[0], engine) then Find(engine, seen, Scope(cs[0]).value) else Found([], seen);
      if Searched(cs[0], engine) { FindWithin(engine, seen, Scope(cs[0]).value); }
      FindRestWithin(engine, here.seen, cs[1..]);
    }
  }

  /** Every CTE inside the body of a listed one stands before it. */
  ghost predicate Ordered(engine: string, s: seq<Clause>) {
    forall i, d :: 0 <= i < |s| && d in AllBody(engine, s[i]) ==> d in s[..i]
  }

  /** A step of the search over clauses with unique, unseen aliases: it collects
      exactly these clauses, in order. */
  ghost predicate Collects(engine: string, seen: set<string>, f: Found, all: seq<Clause>) {
    (forall d :: d in f.ctes <==> d in all) && f.seen == seen + Aliases(all) && Ordered(engine, f.ctes)
  }

  lemma {:induction false} OrderedConcat(engine: string, a: seq<Clause>, b: seq<Clause>)
    requires Ordered(engine, a) && Ordered(engine, b)
    ensures Ordered(engine, a + b)
  {
    var s := a + b;
    forall i, d | 0 <= i < |s| && d in AllBody(engine, s[i]) ensures d in s[..i] {
      if i < |a| {
        assert s[..i] == a[..i];
      } else {
        assert s[i] == b[i - |a|] && d in b[..i - |a|];
        assert s[..i] == a + b[..i - |a|];
      }
    }
  }

  lemma {:induction false} DistinctParts(a: seq<Clause>, b: seq<Clause>)
    requires Distinct(a + b)
    ensures Distinct(a) && Distinct(b) && Aliases(a) !! Aliases(b)
  {
    var s := a + b;
    assert forall i :: 0 <= i < |a| ==> a[i] == s[i];
    assert forall i :: 0 <= i < |b| ==> b[i] == s[|a| + i];
    forall x, y | x in a && y in b ensures Alias(x) != Alias(y) {
      var i :| 0 <= i < |a| && a[i] == x;
      var j :| 0 <= j < |b| && b[j] == y;
      assert Alias(s[i]) != Alias(s[|a| + j]);
    }
  }

  lemma {:induction false} CollectsConcat(engine: string, seen: set<string>, a: Found, alla: seq<Clause>, b: Found, allb: seq<Clause>)
    requires Collects(engine, seen, a, alla) && Collects(engine, a.seen, b, allb)
    ensures Collects(engine, seen, Found(a.ctes + b.ctes, b.seen), alla + allb)
  {
    AliasesConcat(alla, allb);
    OrderedConcat(engine, a.ctes, b.ctes);
  }

  lemma {:induction false} CollectsStep(engine: string, start: set<string>, seen: set<string>, result: seq<Clause>, before: seq<Clause>,
                     cl: Clause, body: Found, inside: seq<Clause>)
    requires Collects(engine, start, Found(result, seen), before)
    requires Collects(engine, seen + {Alias(cl)}, body, inside) && inside == AllBody(engine, cl)
    ensures Collects(engine, start, Found(body.ctes + (result + [cl]), body.seen), before + ([cl] + inside))
  {
    AliasesConcat(before, [cl] + inside);
    AliasesConcat([cl], inside);
    assert Aliases([cl]) == {Alias(cl)};
    OrderedConcat(engine, body.ctes, result);
    var s := body.ctes + result;
    var s' := body.ctes + (result + [cl]);
    assert s' == s + [cl];
    forall i, d | 0 <= i < |s'| && d in AllBody(engine, s'[i]) ensures d in s'[..i] {
      if i < |s| {
        assert s'[..i] == s[..i];
      } else {
        assert s'[..i] == s && d in body.ctes;
      }
    }
  }

  /** With aliases unique across the tree, the search collects every CTE of the
      tree, and every CTE defined anywhere inside the body of another precedes it. */
  lemma {:induction false} FindOrders(engine: string, seen: set<string>, cs: seq<Clause>)
    requires Distinct(All(engine, cs)) && Aliases(All(engine, cs)) !! seen
    ensures Collects(engine, seen, Find(engine, seen, cs), All(engine, cs))
    decreases ClausesSize(cs), 3
  {
    var ctes := Components(cs, Cte, engine);
    DistinctParts(AllLevel(engine, ctes), AllRest(engine, cs));
    AliasesConcat(AllLevel(engine, ctes), AllRest(engine, cs));
    FindLevelOrders(engine, seen, seen, ctes, [], []);
    assert [] + AllLevel(engine, ctes) == AllLevel(engine, ctes);
    var level := FindLevel(engine, seen, ctes, []);
    FindRestOrders(engine, level.seen, cs);
    CollectsConcat(engine, seen, level, AllLevel(engine, ctes), FindRest(engine, level.seen, cs), AllRest(engine, cs));
  }

  lemma {:induction false} FindLevelOrders(engine: string, start: set<string>, seen: set<string>, ctes: seq<Clause>,
                                           result: seq<Clause>, before: seq<Clause>)
    requires Collects(engine, start, Found(result, seen), before)
    requires Distinct(AllLevel(engine, ctes)) && Aliases(AllLevel(engine, ctes)) !! seen
    ensures Collects(engine, start, FindLevel(engine, seen, ctes, result), before + AllLevel(engine, ctes))
    decreases ClausesSize(ctes), 2
  {
    if ctes == [] {
      assert before + [] == before;
    } else {
      var cl := ctes[0];
      var inside := AllBody(engine, cl);
      var tail := AllLevel(engine, ctes[1..]);
      DistinctParts([cl] + inside, tail);
      DistinctParts([cl], inside);
      AliasesConcat([cl] + inside, tail);
      AliasesConcat([cl], inside);
      assert Aliases([cl]) == {Alias(cl)};
      assert Alias(cl) in Aliases(AllLevel(engine, ctes));
      var seen' := seen + {Alias(cl)};
      var body := FindBody(engine, seen', cl);
      if CteBody(cl).Some? { FindOrders(engine, seen', CteBody(cl).value); }
      CollectsStep(engine, start, seen, result, before, cl, body, inside);
      FindLevelOrders(engine, start, body.seen, ctes[1..], body.ctes + (result + [cl]), before + ([cl] + inside));
      assert before + ([cl] + inside) + tail == before + ([cl] + inside + tail);
    }
  }

  lemma {:induction false} FindRestOrders(engine: string, seen: set<string>, cs: seq<Clause>)
    requires Distinct(AllRest(engine, cs)) && Aliases(AllRest(engine, cs)) !! seen
    ensures Collects(engine, seen, FindRest(engine, seen, cs), AllRest(engine, cs))
    decreases ClausesSize(cs), 2
  {
    if cs != [] {
      var inside := if Searched(cs[0], engine) then All(engine, Scope(cs[0]).value) else [];
      var tail := AllRest(engine, cs[1..]);
      DistinctParts(inside, tail);
      AliasesConcat(inside, tail);
      var here := if Searched(cs[0], engine) then Find(engine, seen, Scope(cs[0]).value) else Found([], seen);
      if Searched(cs[0], engine) { FindOrders(engine, seen, Scope(cs[0]).value); }
      FindRestOrders(engine, here.seen, cs[1..]);
      CollectsConcat(engine, seen, here, inside, FindRest(engine, here.seen, cs[1..]), tail);
    }
  }

  /** The search of a scope that holds a single CTE clause. */
  lemma {:induction false} FindSingle(seen: set<string>, cl: Clause)
    requires Tag(cl) == Cte
    ensures Find("", seen, [cl]) ==
      if Alias(cl) in seen then Found([], seen)
      else
        var body := FindBody("", seen + {Alias(cl)}, cl);
        Found(body.ctes + [cl], body.seen)
  {
    assert Components([cl], Cte, "") == [cl] by { assert [cl][1..] == []; }
    FindLevelStep("", seen, [cl], 0, []);
    assert [cl][0..] == [cl] && [cl][1..] == [];
    assert [] + [cl] == [cl];
    var level := FindLevel("", seen, [cl], []);
    FindRestStep("", level.seen, [cl], 0);
    assert FindRest("", level.seen, [cl]) == Found([], level.seen);
    assert level.ctes + [] == level.ctes;
  }

  lemma {:induction false} PairFind(a: Clause, x: Clause, seen: set<string>)
    requires Tag(a) == Cte && Tag(x) == Cte && !a.body.QueryCte? && Alias(a) != Alias(x)
    requires FindBody("", {Alias(a)} + {Alias(x)}, x).seen == seen
    ensures Find("", {}, [a, x]) == Found(FindBody("", {Alias(a)} + {Alias(x)}, x).ctes + [a, x], seen)
  {
    var cs := [a, x];
    assert cs[0..] == cs && cs[1..] == [x] && cs[2..] == [];
    assert Components(cs, Cte, "") == cs by {
      assert [x][1..] == [];
      assert Components([x], Cte, "") == [x];
    }
    var nested := FindBody("", {Alias(a)} + {Alias(x)}, x).ctes;
    FindLevelStep("", {}, cs, 0, []);
    assert {} + {Alias(a)} == {Alias(a)} && [] + ([] + [a]) == [a];
    FindLevelStep("", {Alias(a)}, cs, 1, [a]);
    assert [a] + [x] == cs;
    assert FindLevel("", {}, cs, []) == Found(nested + cs, seen);
    FindRestStep("", seen, cs, 0);
    FindRestStep("", seen, cs, 1);
    assert FindRest("", seen, cs) == Found([], seen);
    assert nested + cs + [] == nested + cs;
  }

  /** Without unique aliases the order can fail: a top-level `a`, then `x` whose
      body defines `w` whose body defines `a` again, are listed as w, a, x. */
  lemma {:induction false} OrderNeedsUniqueAliases(a: Clause, again: Clause, w: Clause, x: Clause)
    requires a.body.RawCte? && again.body.RawCte? && a.body.alias == again.body.alias == "a"
    requires w.body.QueryCte? && w.body.alias == "w" && w.body.query.clauses == [again]
    requires x.body.QueryCte? && x.body.alias == "x" && x.body.query.clauses == [w]
    ensures Find("", {}, [a, x]).ctes == [w, a, x]
    ensures again in AllBody("", w) && !Ordered("", [w, a, x])
  {
    var s2: set<string> := {"a"} + {"x"};
    var s3 := s2 + {"w"};
    LeafOrBody(a);
    LeafOrBody(again);
    LeafOrBody(w);
    LeafOrBody(x);
    hide Find, All;
    FindSingle(s3, again);
    assert FindBody("", s3, w) == Found([], s3);
    FindSingle(s2, w);
    assert [] + [w] == [w];
    assert FindBody("", s2, x) == Found([w], s3);
    PairFind(a, x, s3);
    assert [w] + [a, x] == [w, a, x];
    AllSingle(again);
    assert AllBody("", w) == All("", [again]);
    assert again in AllBody("", [w, a, x][0]) && again !in [w, a, x][..0];
  }

  lemma {:induction false} LeafOrBody(cl: Clause)
    ensures cl.body.RawCte? ==> Tag(cl) == Cte && CteBody(cl).None? && Alias(cl) == cl.body.alias
    ensures cl.body.QueryCte? ==>
      Tag(cl) == Cte && CteBody(cl) == Some(cl.body.query.clauses) && Alias(cl) == cl.body.alias
  {
  }

  lemma {:induction false} AllSingle(cl: Clause)
    requires Tag(cl) == Cte
    ensures cl in All("", [cl])
  {
    assert [cl][1..] == [];
    assert Components([cl], Cte, "") == [cl];
    assert AllLevel("", [cl])[0] == cl;
  }
}
