/** Two outputs that are either the same or told apart by a token: how the fragments
    of a statement pass that on to the whole. */
module Agreement {
  import opened Ast
  import opened Dialects
  import opened Emit

  /** Some position holds different tokens, whatever follows. */
  ghost predicate Apart(a: seq<Token>, b: seq<Token>) { exists i :: 0 <= i < |a| && i < |b| && a[i] != b[i] }

  ghost predicate Agree(same: bool, a: Out, b: Out) { if same then a == b else Apart(a.sql, b.sql) }

  /** The flag is exact. */
  lemma {:induction false} AgreeExact(same: bool, a: Out, b: Out)
    requires Agree(same, a, b)
    ensures a == b <==> same
    ensures a.sql == [] <==> b.sql == []
  {
  }

  lemma {:induction false} ApartWithin(before: seq<Token>, a: seq<Token>, b: seq<Token>, x: seq<Token>, y: seq<Token>)
    requires Apart(a, b)
    ensures Apart(before + a + x, before + b + y)
  {
    var i :| 0 <= i < |a| && i < |b| && a[i] != b[i];
    assert (before + a + x)[|before| + i] == a[i] && (before + b + y)[|before| + i] == b[i];
  }

  lemma {:induction false} AgreeCat(s: bool, a: Out, b: Out, t: bool, x: Out, y: Out)
    requires Agree(s, a, b) && Agree(t, x, y)
    ensures Agree(s && t, Cat(a, x), Cat(b, y))
  {
    if !s {
      ApartWithin([], a.sql, b.sql, x.sql, y.sql);
      assert [] + a.sql == a.sql && [] + b.sql == b.sql;
    } else if !t {
      ApartWithin(a.sql, x.sql, y.sql, [], []);
      assert a.sql + x.sql + [] == a.sql + x.sql && a.sql + y.sql + [] == a.sql + y.sql;
    }
  }

  /** The same text in front and behind. */
  lemma {:induction false} AgreeAround(same: bool, before: seq<Token>, a: Out, b: Out, after: seq<Token>)
    requires Agree(same, a, b)
    ensures Agree(same, Out(before + a.sql + after, a.args), Out(before + b.sql + after, b.args))
  {
    if !same { ApartWithin(before, a.sql, b.sql, after, after); }
  }

  lemma {:induction false} AgreeAfter(same: bool, ts: seq<Token>, a: Out, b: Out)
    requires Agree(same, a, b)
    ensures Agree(same, Cat(Text(ts), a), Cat(Text(ts), b))
  {
    AgreeCat(true, Text(ts), Text(ts), same, a, b);
  }

  lemma {:induction false} AgreeBefore(same: bool, a: Out, b: Out, ts: seq<Token>)
    requires Agree(same, a, b)
    ensures Agree(same, Cat(a, Text(ts)), Cat(b, Text(ts)))
  {
    AgreeCat(same, a, b, true, Text(ts), Text(ts));
  }

  /** An embedded fragment is one token. */
  lemma {:induction false} AgreeInner(same: bool, before: seq<Token>, a: Out, b: Out, after: seq<Token>)
    requires Agree(same, a, b)
    ensures Agree(same, Out(before + [Inner(a.sql)] + after, a.args), Out(before + [Inner(b.sql)] + after, b.args))
  {
    AgreeExact(same, a, b);
    if !same { assert [Inner(a.sql)][0] != [Inner(b.sql)][0]; }
    AgreeAround(same, before, Out([Inner(a.sql)], a.args), Out([Inner(b.sql)], b.args), after);
  }

  // ----- lists ---------------------------------------------------------------------------------

  /** The first difference, if any, tells the lists apart. */
  ghost predicate AgreeParts(same: bool, a: seq<Out>, b: seq<Out>) {
    |a| == |b| && if same then a == b else exists k :: FirstApart(a, b, k)
  }

  ghost predicate FirstApart(a: seq<Out>, b: seq<Out>, k: int) {
    0 <= k < |a| && k < |b| && a[..k] == b[..k] && Apart(a[k].sql, b[k].sql)
  }

  lemma {:induction false} AgreeCons(s: bool, x: Out, y: Out, t: bool, a: seq<Out>, b: seq<Out>)
    requires Agree(s, x, y) && AgreeParts(t, a, b)
    ensures AgreeParts(s && t, [x] + a, [y] + b)
  {
    hide Apart;
    if !s {
      assert FirstApart([x] + a, [y] + b, 0);
    } else if !t {
      var k :| FirstApart(a, b, k);
      assert ([x] + a)[..k + 1] == [x] + a[..k] && ([y] + b)[..k + 1] == [y] + b[..k];
      assert FirstApart([x] + a, [y] + b, k + 1);
    }
  }

  lemma {:induction false} AgreeTail(a: seq<Out>, b: seq<Out>)
    requires |a| > 0 && AgreeParts(false, a, b) && a[0] == b[0]
    ensures AgreeParts(false, a[1..], b[1..])
  {
    var k :| FirstApart(a, b, k);
    assert k > 0;
    assert a[1..][..k - 1] == a[..k][1..] && b[1..][..k - 1] == b[..k][1..];
    assert FirstApart(a[1..], b[1..], k - 1);
  }

  /** The heads agree: they are the same or this is the first difference. */
  lemma {:induction false} HeadsAgree(a: seq<Out>, b: seq<Out>)
    requires |a| > 0 && AgreeParts(false, a, b)
    ensures a[0] == b[0] || Apart(a[0].sql, b[0].sql)
  {
    hide Apart;
    var k :| FirstApart(a, b, k);
    if k > 0 { assert a[0] == a[..k][0] && b[0] == b[..k][0]; }
  }

  lemma {:induction false} AgreeJoined(same: bool, a: seq<Out>, b: seq<Out>, sep: string)
    requires AgreeParts(same, a, b)
    ensures Agree(same, Joined(a, sep), Joined(b, sep))
    decreases |a|
  {
    if !same {
      hide Apart;
      HeadsAgree(a, b);
      if a[0] == b[0] {
        AgreeTail(a, b);
        AgreeJoined(false, a[1..], b[1..], sep);
        AgreeTailJoined(a, b, sep);
      } else {
        AgreeHeadJoined(a, b, sep);
      }
    }
  }

  lemma {:induction false} AgreeTailJoined(a: seq<Out>, b: seq<Out>, sep: string)
    requires |a| == |b| > 0 && a[0] == b[0] && Agree(false, Joined(a[1..], sep), Joined(b[1..], sep))
    ensures Agree(false, Joined(a, sep), Joined(b, sep))
  {
    AgreeExact(false, Joined(a[1..], sep), Joined(b[1..], sep));
    assert |a| > 1;
    var x, y := Joined(a[1..], sep), Joined(b[1..], sep);
    hide Apart, Joined;
    AgreeCat(true, Word(sep), Word(sep), false, x, y);
    AgreeCat(true, a[0], b[0], false, Cat(Word(sep), x), Cat(Word(sep), y));
    JoinedStep(a, sep);
    JoinedStep(b, sep);
  }

  lemma {:induction false} AgreeHeadJoined(a: seq<Out>, b: seq<Out>, sep: string)
    requires |a| == |b| > 0 && Apart(a[0].sql, b[0].sql)
    ensures Agree(false, Joined(a, sep), Joined(b, sep))
  {
    hide Apart;
    JoinedStep(a, sep);
    JoinedStep(b, sep);
    hide Joined;
    if |a| > 1 {
      AgreeAnything(a[0], b[0], Cat(Word(sep), Joined(a[1..], sep)), Cat(Word(sep), Joined(b[1..], sep)));
    }
  }

  lemma {:induction false} JoinedStep(a: seq<Out>, sep: string)
    requires a != []
    ensures Joined(a, sep) == if |a| == 1 then a[0] else Cat(a[0], Cat(Word(sep), Joined(a[1..], sep)))
  {
  }

  /** Once apart, nothing behind matters. */
  lemma {:induction false} AgreeAnything(a: Out, b: Out, x: Out, y: Out)
    requires Agree(false, a, b)
    ensures Agree(false, Cat(a, x), Cat(b, y))
  {
    ApartWithin([], a.sql, b.sql, x.sql, y.sql);
    assert [] + a.sql == a.sql && [] + b.sql == b.sql;
  }

  lemma {:induction false} AgreeConnect(same: bool, cs: seq<Clause>, a: seq<Out>, b: seq<Out>, started: bool)
    requires |cs| == |a| && AgreeParts(same, a, b)
    ensures Agree(same, Connect(cs, a, started), Connect(cs, b, started))
    decreases |a|
  {
    hide Apart, Connective;
    if !same {
      HeadsAgree(a, b);
      ConnectStep(cs, a, started);
      ConnectStep(cs, b, started);
      var later := started || a[0].sql != [];
      if a[0] == b[0] {
        AgreeTail(a, b);
        AgreeConnect(false, cs[1..], a[1..], b[1..], later);
        hide Connect;
        var head := ConnectHead(cs[0], a[0], started);
        AgreeCat(true, head, head, false, Connect(cs[1..], a[1..], later), Connect(cs[1..], b[1..], later));
      } else {
        ApartPrints(a[0].sql, b[0].sql);
        hide Connect;
        AgreeConnectHead(cs[0], a[0], b[0], started);
        AgreeAnything(ConnectHead(cs[0], a[0], started), ConnectHead(cs[0], b[0], started),
                      Connect(cs[1..], a[1..], true), Connect(cs[1..], b[1..], true));
      }
    }
  }

  lemma {:induction false} ApartPrints(a: seq<Token>, b: seq<Token>)
    requires Apart(a, b)
    ensures a != [] && b != []
  {
  }

  /** What a part prints with its connective. */
  function ConnectHead(cl: Clause, part: Out, started: bool): Out {
    if part.sql == [] || !started then part else Cat(Text([Connective(cl)]), part)
  }

  lemma {:induction false} ConnectStep(cs: seq<Clause>, parts: seq<Out>, started: bool)
    requires |cs| == |parts| > 0
    ensures Connect(cs, parts, started) ==
      Cat(ConnectHead(cs[0], parts[0], started), Connect(cs[1..], parts[1..], started || parts[0].sql != []))
  {
  }

  lemma {:induction false} AgreeConnectHead(cl: Clause, a: Out, b: Out, started: bool)
    requires Agree(false, a, b)
    ensures Agree(false, ConnectHead(cl, a, started), ConnectHead(cl, b, started))
  {
    if started { AgreeAfter(false, [Connective(cl)], a, b); }
  }

  lemma {:induction false} AgreeConditions(same: bool, keyword: string, cs: seq<Clause>, a: seq<Out>, b: seq<Out>)
    requires |cs| == |a| && AgreeParts(same, a, b)
    ensures Agree(same, ConditionSection(keyword, cs, a), ConditionSection(keyword, cs, b))
  {
    AgreeConnect(same, cs, a, b, false);
    hide Connect, Apart;
    var x, y := Connect(cs, a, false), Connect(cs, b, false);
    EmptyTogether(same, x, y);
    AgreeCat(true, Word(keyword), Word(keyword), same, x, y);
  }

  lemma {:induction false} EmptyTogether(same: bool, a: Out, b: Out)
    requires Agree(same, a, b)
    ensures a.sql == [] <==> b.sql == []
    ensures a.sql == [] ==> same
  {
  }

  lemma {:induction false} AgreeTable(same: bool, a: seq<Out>, b: seq<Out>)
    requires AgreeParts(same, a, b) && |a| <= 1
    ensures Agree(same, TableSection(a), TableSection(b))
  {
    hide Apart;
    if !same { HeadsAgree(a, b); assert a[..0] == b[..0]; OneApart(a, b); }
  }

  lemma {:induction false} OneApart(a: seq<Out>, b: seq<Out>)
    requires |a| == 1 && AgreeParts(false, a, b)
    ensures Apart(a[0].sql, b[0].sql)
  {
    hide Apart;
    var k :| FirstApart(a, b, k);
    assert k == 0;
  }

  lemma {:induction false} AgreeListed(same: bool, keyword: string, a: seq<Out>, b: seq<Out>, sep: string)
    requires AgreeParts(same, a, b)
    ensures Agree(same, Listed(keyword, a, sep), Listed(keyword, b, sep))
  {
    AgreeJoined(same, a, b, sep);
    hide Joined, Apart;
    if a != [] { AgreeCat(true, Word(keyword), Word(keyword), same, Joined(a, sep), Joined(b, sep)); }
  }
}
