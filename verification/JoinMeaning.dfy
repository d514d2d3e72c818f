/** What the joins of a printed SELECT do to rows: the text after FROM is read as a
    table and a list of joins, and evaluated as the joined tables of SQL are. */
module JoinMeaning {
  import opened Ast
  import opened Dialects
  import opened Emit
  import opened Conditions
  import opened Keywords
  import opened Placeholders
  import opened Sections
  import W = Windows

  // ----- joining rows ------------------------------------------------------------------------

  /** A joined row has one component for each source; None stands for a row of nulls. */
  type Tuple<R> = seq<Option<R>>

  /** The pairs of a row with the rows of the joined table that pass the condition. */
  function PairsOf<R>(on: Tuple<R> -> Truth, l: Tuple<R>, right: seq<R>): seq<Tuple<R>> {
    if right == [] then []
    else (if on(l + [Some(right[0])]) == True then [l + [Some(right[0])]] else []) + PairsOf(on, l, right[1..])
  }

  function Pairs<R>(on: Tuple<R> -> Truth, left: seq<Tuple<R>>, right: seq<R>): seq<Tuple<R>> {
    if left == [] then [] else PairsOf(on, left[0], right) + Pairs(on, left[1..], right)
  }

  /** A row without partner is kept beside a row of nulls. */
  function LeftPairs<R>(on: Tuple<R> -> Truth, left: seq<Tuple<R>>, right: seq<R>): seq<Tuple<R>> {
    if left == [] then []
    else
      var pairs := PairsOf(on, left[0], right);
      (if pairs == [] then [left[0] + [None]] else pairs) + LeftPairs(on, left[1..], right)
  }

  predicate Partnered<R>(on: Tuple<R> -> Truth, left: seq<Tuple<R>>, r: R) {
    exists i :: 0 <= i < |left| && on(left[i] + [Some(r)]) == True
  }

  /** The rows of the joined table without partner, beside nulls. */
  function Unpartnered<R>(on: Tuple<R> -> Truth, width: nat, left: seq<Tuple<R>>, right: seq<R>): seq<Tuple<R>> {
    if right == [] then []
    else (if Partnered(on, left, right[0]) then [] else [Nulls(width) + [Some(right[0])]]) + Unpartnered(on, width, left, right[1..])
  }

  function Nulls<R>(width: nat): Tuple<R> { seq(width, i => None) }

  /** The kinds of join; INNER and CROSS keep the pairs that pass, LEFT and RIGHT add
      the rows of one side that have no partner. */
  function JoinRows<R>(kind: string, on: Tuple<R> -> Truth, width: nat, left: seq<Tuple<R>>, right: seq<R>): Option<seq<Tuple<R>>> {
    if kind == "INNER JOIN" || kind == "CROSS JOIN" then Some(Pairs(on, left, right))
    else if kind == "LEFT JOIN" then Some(LeftPairs(on, left, right))
    else if kind == "RIGHT JOIN" then Some(Pairs(on, left, right) + Unpartnered(on, width, left, right))
    else None
  }

  // ----- what the kinds keep --------------------------------------------------------------------

  lemma {:induction false} PairsOfAre<R>(on: Tuple<R> -> Truth, l: Tuple<R>, right: seq<R>, t: Tuple<R>)
    ensures t in PairsOf(on, l, right) <==> exists j :: 0 <= j < |right| && t == l + [Some(right[j])] && on(t) == True
  {
    if right != [] {
      PairsOfAre(on, l, right[1..], t);
      assert forall j :: 0 <= j < |right[1..]| ==> right[1..][j] == right[j + 1];
      if j :| 0 <= j < |right| && t == l + [Some(right[j])] && on(t) == True {
        if j > 0 { assert right[1..][j - 1] == right[j]; }
      }
    }
  }

  /** An INNER join keeps exactly the pairs that pass its condition. */
  lemma {:induction false} PairsAre<R>(on: Tuple<R> -> Truth, left: seq<Tuple<R>>, right: seq<R>, t: Tuple<R>)
    ensures t in Pairs(on, left, right) <==>
      exists i, j :: 0 <= i < |left| && 0 <= j < |right| && t == left[i] + [Some(right[j])] && on(t) == True
  {
    if left != [] {
      PairsOfAre(on, left[0], right, t);
      PairsAre(on, left[1..], right, t);
      hide PairsOf;
      assert forall i :: 0 <= i < |left[1..]| ==> left[1..][i] == left[i + 1];
      if i, j :| 0 <= i < |left| && 0 <= j < |right| && t == left[i] + [Some(right[j])] && on(t) == True {
        if i > 0 { assert left[1..][i - 1] == left[i]; }
      }
    }
  }

  /** A LEFT join adds the rows without partner, and nothing else. */
  lemma {:induction false} LeftPairsAre<R>(on: Tuple<R> -> Truth, left: seq<Tuple<R>>, right: seq<R>, t: Tuple<R>)
    ensures t in LeftPairs(on, left, right) <==>
      || t in Pairs(on, left, right)
      || exists i :: 0 <= i < |left| && t == left[i] + [None] && PairsOf(on, left[i], right) == []
  {
    if left != [] {
      LeftPairsAre(on, left[1..], right, t);
      hide PairsOf;
      assert forall i :: 0 <= i < |left[1..]| ==> left[1..][i] == left[i + 1];
      if i :| 0 <= i < |left| && t == left[i] + [None] && PairsOf(on, left[i], right) == [] {
        if i > 0 { assert left[1..][i - 1] == left[i]; }
      }
    }
  }

  /** A RIGHT join adds the rows of its table without partner, and nothing else. */
  lemma {:induction false} UnpartneredAre<R>(on: Tuple<R> -> Truth, width: nat, left: seq<Tuple<R>>, right: seq<R>, t: Tuple<R>)
    ensures t in Unpartnered(on, width, left, right) <==>
      exists j :: 0 <= j < |right| && t == Nulls(width) + [Some(right[j])] && !Partnered(on, left, right[j])
  {
    if right != [] {
      UnpartneredAre(on, width, left, right[1..], t);
      hide Partnered, Nulls;
      assert forall j :: 0 <= j < |right[1..]| ==> right[1..][j] == right[j + 1];
      if j :| 0 <= j < |right| && t == Nulls(width) + [Some(right[j])] && !Partnered(on, left, right[j]) {
        if j > 0 { assert right[1..][j - 1] == right[j]; }
      }
    }
  }

  // ----- reading the printed joins ----------------------------------------------------------------

  /** A join as printed: no terms stand for no ON. */
  datatype ReadJoin = ReadJoin(kind: string, target: seq<Token>, on: seq<Term>)

  datatype Source = Source(table: seq<Token>, joins: seq<ReadJoin>)

  /** A join from its keyword to the next one. */
  function ReadOne(kind: string, body: seq<Token>): Option<ReadJoin> {
    var target, on := UpTo(body, {"ON"}), Keywords.From(body, {"ON"});
    if on == [] then Some(ReadJoin(kind, target, []))
    else
      match ParseCondition(on[1..])
      case Some(Parsed(terms, rest)) => if rest == [] then Some(ReadJoin(kind, target, terms)) else None
      case None => None
  }

  /** A blank separates a join from the next one. */
  function Unblanked(body: seq<Token>): seq<Token> {
    if body != [] && body[|body| - 1] == Sym("") then body[..|body| - 1] else body
  }

  function ReadJoins(ts: seq<Token>): Option<seq<ReadJoin>>
    decreases |ts|
  {
    if ts == [] then Some([])
    else if !Opens(ts[0], JoinKinds) then None
    else
      var body, rest := UpTo(ts[1..], JoinKinds), Keywords.From(ts[1..], JoinKinds);
      match ReadOne(ts[0].text, if rest == [] then body else Unblanked(body))
      case None => None
      case Some(join) => match ReadJoins(rest) case None => None case Some(joins) => Some([join] + joins)
  }

  function ReadSource(sql: seq<Token>): Option<Source> {
    var s := ReadSections(Unwrapped(sql));
    if s.from == [] then None
    else match ReadJoins(s.joins) case None => None case Some(joins) => Some(Source(s.from[1..], joins))
  }

  // ----- evaluating what was read ---------------------------------------------------------------------

  /** The rows of a printed table, and the truth of printed predicates on joined rows. */
  datatype Database<!R> = Database(rows: seq<Token> -> seq<R>, reading: Tuple<R> -> Reading)

  ghost predicate LawfulOn<R(!new)>(db: Database<R>) { forall t: Tuple<R> :: Lawful(db.reading(t)) }

  function ReadOn<R>(db: Database<R>, on: seq<Term>): Tuple<R> -> Truth {
    t => if on == [] then True else EvalTerms(db.reading(t), on)
  }

  function JoinAll<R>(db: Database<R>, joins: seq<ReadJoin>, width: nat, left: seq<Tuple<R>>): Option<seq<Tuple<R>>> {
    if joins == [] then Some(left)
    else
      match JoinRows(joins[0].kind, ReadOn(db, joins[0].on), width, left, db.rows(joins[0].target))
      case None => None
      case Some(rows) => JoinAll(db, joins[1..], width + 1, rows)
  }

  function Single<R>(rows: seq<R>): seq<Tuple<R>> { seq(|rows|, i requires 0 <= i < |rows| => [Some(rows[i])]) }

  /** The rows that a printed SELECT filters, groups and projects. */
  function SourceRows<R>(db: Database<R>, sql: seq<Token>): Option<seq<Tuple<R>>> {
    match ReadSource(sql)
    case None => None
    case Some(s) => JoinAll(db, s.joins, 1, Single(db.rows(s.table)))
  }

  // ----- what the clauses ask for ---------------------------------------------------------------------

  /** What the source of a scope prints. */
  function TableText(c: Compiler, env: Env, cs: seq<Clause>): seq<Token> {
    match One(cs, Ast.From, c.Engine())
    case None => [Fault(NoTable)]
    case Some(cl) => EmitClause(c, env, cl).sql
  }

  /** The ON conditions of a join that the dialect sees, on a joined row. */
  function Asked<R>(c: Compiler, env: Env, db: Database<R>, join: Clause): Tuple<R> -> Truth
    requires join.body.Join?
  {
    var conditions := Components(join.body.clauses, Where, c.Engine());
    t => if OmittedAll(c, conditions) then True else Meaning(c, env, db.reading(t), conditions)
  }

  /** The joins of the clauses, in order. */
  function Wanted<R>(c: Compiler, env: Env, db: Database<R>, joins: seq<Clause>, width: nat, left: seq<Tuple<R>>): Option<seq<Tuple<R>>>
    requires forall cl <- joins :: cl.body.Join?
  {
    if joins == [] then Some(left)
    else
      match JoinRows(joins[0].body.kind, Asked(c, env, db, joins[0]), width, left,
                   db.rows(TableText(c, env, joins[0].body.clauses)))
      case None => None
      case Some(rows) => Wanted(c, env, db, joins[1..], width + 1, rows)
  }

  // ----- what is printed is what is asked ------------------------------------------------------------

  /** A read join is the join of the clause: its kind, its table, and its condition on
      every joined row. */
  ghost predicate Faithful<R(!new)>(c: Compiler, env: Env, db: Database<R>, read: ReadJoin, join: Clause)
    requires join.body.Join?
  {
    && read.kind == join.body.kind
    && read.target == TableText(c, env, join.body.clauses)
    && forall t: Tuple<R> :: ReadOn(db, read.on)(t) == Asked(c, env, db, join)(t)
  }

  /** What a join prints after its kind. */
  function JoinBody(c: Compiler, env: Env, cs: seq<Clause>): seq<Token> {
    TableText(c, env, cs) + ConditionSection("ON", Chosen(c, cs, Where), EmitClauses(c, env, Chosen(c, cs, Where))).sql
  }

  lemma {:induction false} TableIs(c: Compiler, env: Env, cs: seq<Clause>)
    ensures TableSection(EmitClauses(c, env, Chosen(c, cs, Ast.From))).sql == TableText(c, env, cs)
  {
    hide One, EmitClause;
    var cl := One(cs, Ast.From, c.Engine());
    if cl.Some? { assert EmitClauses(c, env, [cl.value])[0] == EmitClause(c, env, cl.value); }
  }

  lemma {:induction false} JoinTextIs(c: Compiler, env: Env, cl: Clause)
    requires cl.body.Join?
    ensures EmitClause(c, env, cl).sql == [Sym(cl.body.kind)] + JoinBody(c, env, cl.body.clauses)
  {
    JoinPrints(c, env, cl);
    TableIs(c, env, cl.body.clauses);
    hide EmitClause, EmitClauses, Chosen, ConditionSection, TableSection, TableText;
  }

  lemma {:induction false} TableIsCalm(c: Compiler, env: Env, cs: seq<Clause>)
    ensures Calm(TableText(c, env, cs))
  {
    TableIs(c, env, cs);
    W.SectionsCalm(c, env, cs, Ast.From);
    hide Calm, EmitClauses, TableText, Chosen;
    if EmitClauses(c, env, Chosen(c, cs, Ast.From)) == [] { FaultIsCalm(); }
  }

  lemma {:induction false} FaultIsCalm()
    ensures Calm([Fault(NoTable)])
  {
  }

  lemma {:induction false} JoinMarks()
    ensures JoinKinds <= Marks && {"ON"} <= Marks && "" !in JoinKinds && "ON" !in JoinKinds
  {
  }

  lemma {:induction false} BodyIsFree(c: Compiler, env: Env, cs: seq<Clause>)
    ensures Free(JoinBody(c, env, cs), JoinKinds) && Free(TableText(c, env, cs), {"ON"})
    ensures Free(JoinBody(c, env, cs) + [Sym("")], JoinKinds)
  {
    var list := Chosen(c, cs, Where);
    TableIsCalm(c, env, cs);
    W.SectionsCalm(c, env, cs, Where);
    hide EmitClauses, Chosen, TableText, Connect, Calm;
    CalmConnect(list, EmitClauses(c, env, list), false);
    JoinMarks();
    hide Marks, JoinKinds, AllCalm;
    var conditions := Connect(list, EmitClauses(c, env, list), false).sql;
    assert Free(TableText(c, env, cs), Marks) && Free(conditions, Marks) by { CalmAre(TableText(c, env, cs)); CalmAre(conditions); }
    FreeWithin(TableText(c, env, cs), JoinKinds, Marks);
    FreeWithin(TableText(c, env, cs), {"ON"}, Marks);
    FreeWithin(conditions, JoinKinds, Marks);
    FreeCat([Sym("ON")], conditions, JoinKinds);
    FreeCat(TableText(c, env, cs), ConditionSection("ON", list, EmitClauses(c, env, list)).sql, JoinKinds);
    FreeCat(JoinBody(c, env, cs), [Sym("")], JoinKinds);
  }

  lemma {:induction false} CalmAre(ts: seq<Token>)
    requires Calm(ts)
    ensures Free(ts, Marks)
  {
  }

  /** The condition after ON, on every joined row. */
  ghost predicate OnSays<R(!new)>(c: Compiler, env: Env, db: Database<R>, list: seq<Clause>, on: seq<Token>) {
    if OmittedAll(c, list) then on == []
    else
      && on != [] && on[0] == Sym("ON") && ParseCondition(on[1..]).Some? && ParseCondition(on[1..]).value.rest == []
      && forall t: Tuple<R> ::
           EvalTerms(db.reading(t), ParseCondition(on[1..]).value.value) == Meaning(c, env, db.reading(t), list)
  }

  lemma {:induction false} OnReads<R(!new)>(c: Compiler, env: Env, db: Database<R>, cs: seq<Clause>)
    requires Built(cs) && LawfulOn(db)
    ensures var list := Components(cs, Where, c.Engine());
      OnSays(c, env, db, list, ConditionSection("ON", list, EmitClauses(c, env, list)).sql)
  {
    hide Built, ParseCondition, EmitClauses, ConditionSection, Lawful, Components, OmittedAll, Meaning, Conditions.Runs, Items;
    SectionMeans(c, env, db.reading([]), cs, Where, "ON");
    forall t: Tuple<R>
      ensures var list := Components(cs, Where, c.Engine());
        var on := ConditionSection("ON", list, EmitClauses(c, env, list)).sql;
        OmittedAll(c, list) || (ParseCondition(on[1..]).Some?
          && EvalTerms(db.reading(t), ParseCondition(on[1..]).value.value) == Meaning(c, env, db.reading(t), list))
    {
      SectionMeans(c, env, db.reading(t), cs, Where, "ON");
    }
  }

  lemma {:induction false} ReadOneIs(kind: string, body: seq<Token>, target: seq<Token>, on: seq<Token>)
    requires UpTo(body, {"ON"}) == target && Keywords.From(body, {"ON"}) == on
    requires on == [] || (ParseCondition(on[1..]).Some? && ParseCondition(on[1..]).value.rest == [])
    ensures ReadOne(kind, body) == Some(ReadJoin(kind, target, if on == [] then [] else ParseCondition(on[1..]).value.value))
  {
    hide ParseCondition, UpTo, Keywords.From;
  }

  lemma {:induction false} OneReads<R(!new)>(c: Compiler, env: Env, db: Database<R>, cl: Clause)
    requires cl.body.Join? && BuiltClause(cl) && LawfulOn(db)
    ensures var read := ReadOne(cl.body.kind, JoinBody(c, env, cl.body.clauses));
      read.Some? && Faithful(c, env, db, read.value, cl)
  {
    var cs := cl.body.clauses;
    var list := Components(cs, Where, c.Engine());
    var on := ConditionSection("ON", list, EmitClauses(c, env, list)).sql;
    JoinScopeBuilt(cl);
    hide BuiltClause, Built, ParseCondition, EmitClauses, ConditionSection, TableText, LawfulOn, OmittedAll, Components, UpTo,
      Keywords.From, Meaning, JoinBody, OnSays, Faithful, ReadOne;
    OnReads(c, env, db, cs);
    SaysFaithfully(c, env, db, cl, on);
    BodyCuts(c, env, cs);
    ReadOneIs(cl.body.kind, JoinBody(c, env, cs), TableText(c, env, cs), on);
  }

  lemma {:induction false} JoinScopeBuilt(cl: Clause)
    requires cl.body.Join? && BuiltClause(cl)
    ensures Built(cl.body.clauses)
  {
  }

  lemma {:induction false} BodyCuts(c: Compiler, env: Env, cs: seq<Clause>)
    ensures var body := JoinBody(c, env, cs); var list := Components(cs, Where, c.Engine());
      UpTo(body, {"ON"}) == TableText(c, env, cs)
      && Keywords.From(body, {"ON"}) == ConditionSection("ON", list, EmitClauses(c, env, list)).sql
  {
    var list := Chosen(c, cs, Where);
    BodyIsFree(c, env, cs);
    ChosenIs(c, cs, Where);
    hide EmitClauses, Chosen, Free, TableText, Components, UpTo, Keywords.From, Connect;
    SplitsAt(TableText(c, env, cs), ConditionSection("ON", list, EmitClauses(c, env, list)).sql, {"ON"});
  }

  lemma {:induction false} SaysFaithfully<R(!new)>(c: Compiler, env: Env, db: Database<R>, cl: Clause, on: seq<Token>)
    requires cl.body.Join? && OnSays(c, env, db, Components(cl.body.clauses, Where, c.Engine()), on)
    ensures on == [] ==> Faithful(c, env, db, ReadJoin(cl.body.kind, TableText(c, env, cl.body.clauses), []), cl)
    ensures on != [] ==>
      && ParseCondition(on[1..]).Some? && ParseCondition(on[1..]).value.rest == []
      && Faithful(c, env, db, ReadJoin(cl.body.kind, TableText(c, env, cl.body.clauses), ParseCondition(on[1..]).value.value), cl)
  {
    hide ParseCondition, TableText, OmittedAll, Components, Meaning;
  }

  /** The list of read joins is the list of join clauses. */
  ghost predicate AllFaithful<R(!new)>(c: Compiler, env: Env, db: Database<R>, found: seq<ReadJoin>, joins: seq<Clause>)
    requires forall cl <- joins :: cl.body.Join?
  {
    |found| == |joins| && forall i :: 0 <= i < |joins| ==> Faithful(c, env, db, found[i], joins[i])
  }

  lemma {:induction false} JoinListReads<R(!new)>(c: Compiler, env: Env, db: Database<R>, joins: seq<Clause>)
    requires LawfulOn(db) && forall cl <- joins :: cl.body.Join? && cl.body.kind in JoinKinds && BuiltClause(cl)
    ensures var found := ReadJoins(Dialects.Joined(EmitClauses(c, env, joins), "").sql);
      found.Some? && AllFaithful(c, env, db, found.value, joins)
  {
    if joins == [] {
    } else {
      hide BuiltClause, LawfulOn, Faithful, AllFaithful, ReadOne, JoinBody, JoinKinds, EmitClauses, ReadJoins, Dialects.Joined;
      OneReads(c, env, db, joins[0]);
      JoinListReads(c, env, db, joins[1..]);
      ListStep(c, env, joins);
      ConsFaithful(c, env, db, ReadOne(joins[0].body.kind, JoinBody(c, env, joins[0].body.clauses)).value,
                   ReadJoins(Dialects.Joined(EmitClauses(c, env, joins[1..]), "").sql).value, joins);
    }
  }

  /** The first join of a printed list is read up to the second. */
  lemma {:induction false} ListStep(c: Compiler, env: Env, joins: seq<Clause>)
    requires joins != [] && forall cl <- joins :: cl.body.Join? && cl.body.kind in JoinKinds
    ensures ReadJoins(Dialects.Joined(EmitClauses(c, env, joins), "").sql) ==
      match ReadOne(joins[0].body.kind, JoinBody(c, env, joins[0].body.clauses))
      case None => None
      case Some(join) =>
        match ReadJoins(Dialects.Joined(EmitClauses(c, env, joins[1..]), "").sql)
        case None => None
        case Some(more) => Some([join] + more)
  {
    var kind, body := joins[0].body.kind, JoinBody(c, env, joins[0].body.clauses);
    var parts := EmitClauses(c, env, joins);
    var more := Dialects.Joined(parts[1..], "").sql;
    JoinTextIs(c, env, joins[0]);
    assert parts[0] == EmitClause(c, env, joins[0]) && parts[1..] == EmitClauses(c, env, joins[1..]);
    hide ReadOne, JoinBody, JoinKinds, EmitClause, EmitClauses, ReadJoins, Free, Dialects.Joined;
    BodyIsFree(c, env, joins[0].body.clauses);
    JoinListFree(c, env, joins[1..]);
    ListIsPrinted(c, env, joins[1..]);
    MoreText(parts);
    FirstReads(kind, body, more, |joins| > 1);
  }

  lemma {:induction false} ListIsPrinted(c: Compiler, env: Env, joins: seq<Clause>)
    requires forall cl <- joins :: cl.body.Join?
    ensures Dialects.Joined(EmitClauses(c, env, joins), "").sql != [] <==> joins != []
  {
    if joins != [] {
      JoinTextIs(c, env, joins[0]);
      hide EmitClause, JoinBody;
      assert EmitClauses(c, env, joins)[0] == EmitClause(c, env, joins[0]);
      MoreText(EmitClauses(c, env, joins));
    }
  }

  lemma {:induction false} ConsFaithful<R(!new)>(c: Compiler, env: Env, db: Database<R>, first: ReadJoin, rest: seq<ReadJoin>, joins: seq<Clause>)
    requires joins != [] && forall cl <- joins :: cl.body.Join?
    requires Faithful(c, env, db, first, joins[0]) && AllFaithful(c, env, db, rest, joins[1..])
    ensures AllFaithful(c, env, db, [first] + rest, joins)
  {
    hide Faithful;
    forall i | 0 <= i < |joins| ensures Faithful(c, env, db, ([first] + rest)[i], joins[i]) {
      if i > 0 { assert joins[1..][i - 1] == joins[i] && ([first] + rest)[i] == rest[i - 1]; }
    }
  }

  lemma {:induction false} MoreText(parts: seq<Out>)
    requires parts != []
    ensures Dialects.Joined(parts, "").sql ==
      parts[0].sql + if |parts| == 1 then [] else [Sym("")] + Dialects.Joined(parts[1..], "").sql
  {
    if |parts| == 1 { assert parts[0].sql + [] == parts[0].sql; }
  }

  /** The first join of a list is read up to the next one. */
  lemma {:induction false} FirstReads(kind: string, body: seq<Token>, more: seq<Token>, several: bool)
    requires kind in JoinKinds && Free(body, JoinKinds) && Free(body + [Sym("")], JoinKinds)
    requires Starts(more, JoinKinds) && (several <==> more != [])
    ensures var ts := [Sym(kind)] + body + if several then [Sym("")] + more else [];
      ReadJoins(ts) ==
        match ReadOne(kind, body)
        case None => None
        case Some(join) => match ReadJoins(more) case None => None case Some(joins) => Some([join] + joins)
  {
    hide ReadOne, JoinKinds, Free, UpTo, Keywords.From;
    var tail := if several then body + [Sym("")] else body;
    var ts := [Sym(kind)] + body + if several then [Sym("")] + more else [];
    assert ts[1..] == tail + more;
    SplitsAt(tail, more, JoinKinds);
    assert several ==> tail[..|tail| - 1] == body;
  }

  // ----- evaluation follows -----------------------------------------------------------------------------

  lemma {:induction false} SamePairsOf<R>(f: Tuple<R> -> Truth, g: Tuple<R> -> Truth, l: Tuple<R>, right: seq<R>)
    requires forall t :: f(t) == g(t)
    ensures PairsOf(f, l, right) == PairsOf(g, l, right)
  {
    if right != [] { SamePairsOf(f, g, l, right[1..]); }
  }

  lemma {:induction false} SamePairs<R>(f: Tuple<R> -> Truth, g: Tuple<R> -> Truth, left: seq<Tuple<R>>, right: seq<R>)
    requires forall t :: f(t) == g(t)
    ensures Pairs(f, left, right) == Pairs(g, left, right) && LeftPairs(f, left, right) == LeftPairs(g, left, right)
  {
    if left != [] {
      SamePairsOf(f, g, left[0], right);
      SamePairs(f, g, left[1..], right);
    }
  }

  lemma {:induction false} SameUnpartnered<R>(f: Tuple<R> -> Truth, g: Tuple<R> -> Truth, width: nat, left: seq<Tuple<R>>, right: seq<R>)
    requires forall t :: f(t) == g(t)
    ensures Unpartnered(f, width, left, right) == Unpartnered(g, width, left, right)
  {
    if right != [] {
      SameUnpartnered(f, g, width, left, right[1..]);
      assert Partnered(f, left, right[0]) == Partnered(g, left, right[0]);
    }
  }

  lemma {:induction false} SameRows<R>(kind: string, f: Tuple<R> -> Truth, g: Tuple<R> -> Truth, width: nat, left: seq<Tuple<R>>, right: seq<R>)
    requires forall t :: f(t) == g(t)
    ensures JoinRows(kind, f, width, left, right) == JoinRows(kind, g, width, left, right)
  {
    SamePairs(f, g, left, right);
    SameUnpartnered(f, g, width, left, right);
    hide Pairs, LeftPairs, Unpartnered;
  }

  lemma {:induction false} EvaluatesAlike<R(!new)>(c: Compiler, env: Env, db: Database<R>, found: seq<ReadJoin>, joins: seq<Clause>, width: nat, left: seq<Tuple<R>>)
    requires (forall cl <- joins :: cl.body.Join?) && AllFaithful(c, env, db, found, joins)
    ensures JoinAll(db, found, width, left) == Wanted(c, env, db, joins, width, left)
  {
    hide JoinRows, ReadOn, Asked, TableText;
    if joins != [] {
      assert Faithful(c, env, db, found[0], joins[0]);
      var right := db.rows(found[0].target);
      SameRows(joins[0].body.kind, ReadOn(db, found[0].on), Asked(c, env, db, joins[0]), width, left, right);
      forall i | 0 <= i < |joins[1..]| ensures Faithful(c, env, db, found[1..][i], joins[1..][i]) {
        assert Faithful(c, env, db, found[i + 1], joins[i + 1]);
      }
      var rows := JoinRows(joins[0].body.kind, Asked(c, env, db, joins[0]), width, left, right);
      if rows.Some? { EvaluatesAlike(c, env, db, found[1..], joins[1..], width + 1, rows.value); }
    }
  }

  // ----- the main results ------------------------------------------------------------------------------------

  /** For every dialect and every built query: the joins read from the printed text are
      those of the clauses that the dialect sees, in order, each with its kind, its
      table and its condition; so the text denotes the joined rows that the clauses
      ask for. */
  lemma {:induction false} PrintedJoinsMean<R(!new)>(c: Compiler, outer: Env, q: Query, db: Database<R>)
    requires Built(q.clauses) && NamedJoins(Components(q.clauses, Joins, c.Engine()))
    requires NamedCombines(Components(q.clauses, Combine, c.Engine())) && LawfulOn(db)
    ensures var joins := Components(q.clauses, Joins, c.Engine());
      var source := ReadSource(EmitQuery(c, outer, q).sql);
      var env := outer + q.variables;
      && (forall cl <- joins :: cl.body.Join?)
      && source.Some? && source.value.table == TableText(c, env, q.clauses)
      && AllFaithful(c, env, db, source.value.joins, joins)
      && SourceRows(db, EmitQuery(c, outer, q).sql) ==
           Wanted(c, env, db, joins, 1, Single(db.rows(TableText(c, env, q.clauses))))
  {
    var joins := Components(q.clauses, Joins, c.Engine());
    var env := outer + q.variables;
    SourceText(c, outer, q);
    JoinsAre(c, q.clauses);
    hide EmitQuery, ReadSections, Unwrapped, Components, Chosen, EmitClauses, Built, NamedJoins, NamedCombines, TableText, Wanted,
      JoinAll, AllFaithful, Dialects.Joined, LawfulOn, BuiltClause, ReadJoins, JoinKinds;
    JoinListReads(c, env, db, joins);
    var found := ReadJoins(Dialects.Joined(EmitClauses(c, env, joins), "").sql).value;
    EvaluatesAlike(c, env, db, found, joins, 1, Single(db.rows(TableText(c, env, q.clauses))));
    SourceIs(EmitQuery(c, outer, q).sql, TableText(c, env, q.clauses));
  }

  lemma {:induction false} SourceIs(sql: seq<Token>, table: seq<Token>)
    requires ReadSections(Unwrapped(sql)).from == [Sym("FROM")] + table
    ensures ReadSource(sql) ==
      match ReadJoins(ReadSections(Unwrapped(sql)).joins) case None => None case Some(joins) => Some(Source(table, joins))
  {
    hide ReadSections, Unwrapped, ReadJoins;
    assert ([Sym("FROM")] + table)[1..] == table;
  }

  lemma {:induction false} SourceText(c: Compiler, outer: Env, q: Query)
    requires Built(q.clauses) && NamedJoins(Components(q.clauses, Joins, c.Engine()))
    requires NamedCombines(Components(q.clauses, Combine, c.Engine()))
    ensures var s := ReadSections(Unwrapped(EmitQuery(c, outer, q).sql)); var env := outer + q.variables;
      && s.from == [Sym("FROM")] + TableText(c, env, q.clauses)
      && s.joins == Dialects.Joined(EmitClauses(c, env, Components(q.clauses, Joins, c.Engine())), "").sql
  {
    var env := outer + q.variables;
    SelectReads(c, outer, q);
    ReadSame(c, q, Joins);
    ReadSame(c, q, Ast.From);
    JoinsAre(c, q.clauses);
    TableIs(c, env, q.clauses);
    hide EmitQuery, ReadSections, Unwrapped, Components, Chosen, EmitClauses, Built, NamedJoins, NamedCombines, TableText, TableSection,
      HeadSection, ConditionSection, Emit.Listed, W.Ordering, LimitSection, Dialects.Joined, Read, LimitOf, OffsetOf;
  }
}
