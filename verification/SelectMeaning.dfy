/** The rest of a printed SELECT, read back: DISTINCT, grouping, ordering, combined
    queries and projected aggregates. */
module SelectMeaning {
  import opened Ast
  import opened Conditions
  import opened Dialects
  import opened Emit
  import opened Keywords
  import opened PagedQueries
  import opened Placeholders
  import opened Sections
  import B = Building
  import Pages
  import PR = Programs
  import S = Strings
  import W = Windows

  // ----- lists ---------------------------------------------------------------------------------

  /** The items between commas; no tokens are one empty item. */
  function Split(ts: seq<Token>): (items: seq<seq<Token>>)
    ensures items != []
  {
    if ts == [] then [[]]
    else
      var more := Split(ts[1..]);
      if ts[0] == Sym(",") then [[]] + more else [[ts[0]] + more[0]] + more[1..]
  }

  function Texts(parts: seq<Out>): (texts: seq<seq<Token>>)
    ensures |texts| == |parts| && forall i :: 0 <= i < |parts| ==> texts[i] == parts[i].sql
  {
    seq(|parts|, i requires 0 <= i < |parts| => parts[i].sql)
  }

  lemma {:induction false} TextsCons(first: Out, rest: seq<Out>)
    ensures Texts([first] + rest) == [first.sql] + Texts(rest)
  {
  }

  lemma {:induction false} SplitItem(a: seq<Token>, rest: seq<Token>)
    requires Sym(",") !in a
    ensures Split(a + ([Sym(",")] + rest)) == [a] + Split(rest)
    ensures Split(a) == [a]
  {
    if a == [] {
      assert a + ([Sym(",")] + rest) == [Sym(",")] + rest;
      assert ([Sym(",")] + rest)[1..] == rest;
    } else {
      SplitItem(a[1..], rest);
      var ts := a + ([Sym(",")] + rest);
      assert ts[1..] == a[1..] + ([Sym(",")] + rest);
      assert [a[0]] + a[1..] == a;
      assert ([a[1..]] + Split(rest))[1..] == Split(rest);
    }
  }

  /** A joined list is split into its parts. */
  lemma {:induction false} SplitJoined(parts: seq<Out>)
    requires parts != [] && forall p <- parts :: Sym(",") !in p.sql
    ensures Split(Joined(parts, ",").sql) == Texts(parts)
  {
    hide Split;
    if |parts| == 1 {
      SplitItem(parts[0].sql, []);
      assert Texts(parts) == [parts[0].sql];
    } else {
      SplitJoined(parts[1..]);
      SplitItem(parts[0].sql, Joined(parts[1..], ",").sql);
      assert Texts(parts) == [parts[0].sql] + Texts(parts[1..]);
    }
  }

  // ----- ordering -------------------------------------------------------------------------------

  datatype Sort = ByColumn(name: string, descending: bool) | ByText(tokens: seq<Token>) | AtRandom(call: string)

  function ReadSort(ts: seq<Token>): Option<Sort> {
    if ts == [] then Some(ByText([]))
    else if |ts| == 1 && ts[0].Ident? then Some(ByColumn(ts[0].name, false))
    else if |ts| == 2 && ts[0].Ident? && ts[1] == Sym("DESC") then Some(ByColumn(ts[0].name, true))
    else if |ts| == 1 && ts[0].Inner? then Some(ByText(ts[0].tokens))
    else if |ts| == 1 && ts[0].Sym? then Some(AtRandom(ts[0].text))
    else None
  }

  function ReadSorts(items: seq<seq<Token>>): Option<seq<Sort>> {
    if items == [] then Some([])
    else
      match ReadSort(items[0])
      case None => None
      case Some(sort) => match ReadSorts(items[1..]) case None => None case Some(sorts) => Some([sort] + sorts)
  }

  function ReadOrdering(order: seq<Token>): Option<seq<Sort>> {
    if order == [] then Some([]) else if order[0] != Sym("ORDER BY") then None else ReadSorts(Split(order[1..]))
  }

  /** What an ordering clause asks for. */
  function Asked(c: Compiler, cl: Clause): Sort
    requires Tag(cl) == Order && BuiltClause(cl)
  {
    match cl.body
    case OrderColumn(column, ascending) => ByColumn(column, !ascending)
    case OrderRaw(raw) => ByText(ExpressionTokens(c, raw))
    case OrderRandom => AtRandom(if c.dialect.SqlServer? then "NEWID()" else "RANDOM()")
  }

  predicate Orders(cs: seq<Clause>) { forall cl <- cs :: Tag(cl) == Order && BuiltClause(cl) }

  function AllAsked(c: Compiler, cs: seq<Clause>): seq<Sort>
    requires Orders(cs)
  {
    if cs == [] then [] else [Asked(c, cs[0])] + AllAsked(c, cs[1..])
  }

  lemma {:induction false} SortReads(c: Compiler, cl: Clause)
    requires Tag(cl) == Order && BuiltClause(cl)
    ensures Sym(",") !in OrderOut(c, cl).sql && ReadSort(OrderOut(c, cl).sql) == Some(Asked(c, cl))
  {
    hide ExpressionTokens;
    assert |"DESC"| == 4 && |","| == 1 && |"NEWID()"| == 7 && |"RANDOM()"| == 8;
  }

  lemma {:induction false} SortsRead(c: Compiler, cs: seq<Clause>)
    requires Orders(cs)
    ensures (forall p <- OrderParts(c, cs) :: Sym(",") !in p.sql) && ReadSorts(Texts(OrderParts(c, cs))) == Some(AllAsked(c, cs))
    ensures |OrderParts(c, cs)| == |cs|
  {
    hide OrderOut, ReadSort, Asked, BuiltClause;
    if cs != [] {
      SortReads(c, cs[0]);
      SortsRead(c, cs[1..]);
      assert Texts(OrderParts(c, cs)) == [OrderOut(c, cs[0]).sql] + Texts(OrderParts(c, cs[1..]));
    }
  }

  lemma {:induction false} OrdersOf(c: Compiler, cs: seq<Clause>)
    requires Built(cs)
    ensures Orders(Components(cs, Order, c.Engine()))
  {
    forall cl | cl in Components(cs, Order, c.Engine()) ensures Tag(cl) == Order && BuiltClause(cl) {
      var i :| 0 <= i < |cs| && cs[i] == cl;
      assert BuiltClause(cs[i]);
    }
  }

  /** For every built query that is not numbered in a clone: the printed ordering, read
      back, is the list of orderings that the dialect sees, each with its direction. */
  lemma {:induction false} OrderingReads(c: Compiler, outer: Env, q: Query)
    requires Built(q.clauses) && NamedJoins(Components(q.clauses, Joins, c.Engine()))
    requires NamedCombines(Components(q.clauses, Combine, c.Engine())) && !Recompiled(c, q)
    ensures Orders(Components(q.clauses, Order, c.Engine()))
    ensures ReadOrdering(ReadSections(Unwrapped(EmitQuery(c, outer, q).sql)).order)
         == Some(AllAsked(c, Components(q.clauses, Order, c.Engine())))
  {
    OrdersOf(c, q.clauses);
    OrderingText(c, outer, q);
    hide EmitQuery, ReadSections, Unwrapped, Components, Built, NamedCombines, NamedJoins, Orders, AllAsked, ReadOrdering, Recompiled;
    OrderingIs(c, Components(q.clauses, Order, c.Engine()));
  }

  lemma {:induction false} OrderingText(c: Compiler, outer: Env, q: Query)
    requires Built(q.clauses) && NamedJoins(Components(q.clauses, Joins, c.Engine()))
    requires NamedCombines(Components(q.clauses, Combine, c.Engine())) && !Recompiled(c, q)
    ensures ReadSections(Unwrapped(EmitQuery(c, outer, q).sql)).order == OrdersOut(OrderParts(c, Components(q.clauses, Order, c.Engine()))).sql
  {
    SelectReads(c, outer, q);
    hide EmitQuery, ReadSections, Unwrapped, Components, EmitClauses, Built, NamedCombines, TableSection, HeadSection, ConditionSection,
      Emit.Listed, LimitSection, LimitOf, OffsetOf, Chosen, OrderParts, OrdersOut, NamedJoins;
  }

  lemma {:induction false} OrderingIs(c: Compiler, orders: seq<Clause>)
    requires Orders(orders)
    ensures ReadOrdering(OrdersOut(OrderParts(c, orders)).sql) == Some(AllAsked(c, orders))
  {
    hide Orders, OrderParts, Joined, AllAsked, Split, ReadSorts;
    SortsRead(c, orders);
    var parts := OrderParts(c, orders);
    if parts != [] {
      SplitJoined(parts);
      assert ([Sym("ORDER BY")] + Joined(parts, ",").sql)[1..] == Joined(parts, ",").sql;
    } else {
      NothingAsked(c);
    }
  }

  lemma {:induction false} NothingAsked(c: Compiler)
    ensures AllAsked(c, []) == []
  {
  }

  // ----- grouping ---------------------------------------------------------------------------------

  /** A column as printed: its name, or the text of an expression. */
  datatype Item = Named(name: string) | Expressed(tokens: seq<Token>)

  function ReadItem(ts: seq<Token>): Option<Item> {
    if ts == [] then Some(Expressed([]))
    else if |ts| == 1 && ts[0].Ident? then Some(Named(ts[0].name))
    else if |ts| == 1 && ts[0].Inner? then Some(Expressed(ts[0].tokens))
    else None
  }

  function ReadItems(items: seq<seq<Token>>): Option<seq<Item>> {
    if items == [] then Some([])
    else
      match ReadItem(items[0])
      case None => None
      case Some(item) => match ReadItems(items[1..]) case None => None case Some(more) => Some([item] + more)
  }

  function ReadGrouping(group: seq<Token>): Option<seq<Item>> {
    if group == [] then Some([]) else if group[0] != Sym("GROUP BY") then None else ReadItems(Split(group[1..]))
  }

  predicate Groups(cs: seq<Clause>) { forall cl <- cs :: cl.body.Column? || cl.body.RawColumn? }

  function GroupedBy(c: Compiler, cs: seq<Clause>): seq<Item>
    requires Groups(cs)
  {
    if cs == [] then []
    else
      [match cs[0].body case Column(_, name) => Named(name) case RawColumn(_, raw) => Expressed(ExpressionTokens(c, raw))]
      + GroupedBy(c, cs[1..])
  }

  lemma {:induction false} ItemReads(c: Compiler, env: Env, cl: Clause)
    requires cl.body.Column? || cl.body.RawColumn?
    ensures var ts := EmitClause(c, env, cl).sql;
      Sym(",") !in ts && ReadItem(ts) == Some(match cl.body case Column(_, name) => Named(name) case RawColumn(_, raw) => Expressed(ExpressionTokens(c, raw)))
  {
    hide ExpressionTokens;
  }

  lemma {:induction false} GroupsRead(c: Compiler, env: Env, cs: seq<Clause>)
    requires Groups(cs)
    ensures var parts := EmitClauses(c, env, cs);
      (forall p <- parts :: Sym(",") !in p.sql) && ReadItems(Texts(parts)) == Some(GroupedBy(c, cs))
  {
    if cs == [] {
      assert Texts(EmitClauses(c, env, cs)) == [];
    } else {
      ItemReads(c, env, cs[0]);
      GroupsRead(c, env, cs[1..]);
      var first, rest := EmitClause(c, env, cs[0]), EmitClauses(c, env, cs[1..]);
      assert EmitClauses(c, env, cs) == [first] + rest;
      hide EmitClause, EmitClauses, ReadItem, ExpressionTokens;
      TextsCons(first, rest);
      assert ([first.sql] + Texts(rest))[1..] == Texts(rest);
    }
  }

  lemma {:induction false} GroupsOf(c: Compiler, cs: seq<Clause>)
    requires Built(cs)
    ensures Groups(Components(cs, Group, c.Engine()))
  {
    forall cl | cl in Components(cs, Group, c.Engine()) ensures cl.body.Column? || cl.body.RawColumn? {
      var i :| 0 <= i < |cs| && cs[i] == cl;
      assert BuiltClause(cs[i]);
    }
  }

  /** The printed grouping, read back, is the list of grouping columns and expressions
      that the dialect sees. */
  lemma {:induction false} GroupingReads(c: Compiler, outer: Env, q: Query)
    requires Built(q.clauses) && NamedJoins(Components(q.clauses, Joins, c.Engine()))
    requires NamedCombines(Components(q.clauses, Combine, c.Engine()))
    ensures Groups(Components(q.clauses, Group, c.Engine()))
    ensures ReadGrouping(ReadSections(Unwrapped(EmitQuery(c, outer, q).sql)).group) == Some(GroupedBy(c, Components(q.clauses, Group, c.Engine())))
  {
    var groups := Components(q.clauses, Group, c.Engine());
    GroupsOf(c, q.clauses);
    GroupingText(c, outer, q);
    hide EmitQuery, ReadSections, Unwrapped, Components, EmitClauses, Built, NamedCombines, NamedJoins, Joined, Split, ReadItems, Groups;
    GroupsRead(c, outer + q.variables, groups);
    var parts := EmitClauses(c, outer + q.variables, groups);
    if groups != [] {
      SplitJoined(parts);
      assert ([Sym("GROUP BY")] + Joined(parts, ",").sql)[1..] == Joined(parts, ",").sql;
    }
  }

  lemma {:induction false} GroupingText(c: Compiler, outer: Env, q: Query)
    requires Built(q.clauses) && NamedJoins(Components(q.clauses, Joins, c.Engine()))
    requires NamedCombines(Components(q.clauses, Combine, c.Engine()))
    ensures var parts := EmitClauses(c, outer + q.variables, Components(q.clauses, Group, c.Engine()));
      ReadSections(Unwrapped(EmitQuery(c, outer, q).sql)).group ==
        if parts == [] then [] else [Sym("GROUP BY")] + Joined(parts, ",").sql
  {
    SelectReads(c, outer, q);
    ReadSame(c, q, Group);
    ChosenIs(c, q.clauses, Group);
    hide EmitQuery, ReadSections, Unwrapped, Components, EmitClauses, Built, NamedCombines, TableSection, HeadSection, ConditionSection,
      LimitSection, LimitOf, OffsetOf, Chosen, Joined, NamedJoins, Read;
  }

  // ----- embedded queries -------------------------------------------------------------------------

  /** An embedded query as a source or a column: its text and its alias. */
  function ReadEmbedded(ts: seq<Token>): Option<(seq<Token>, string)> {
    if |ts| < 3 || ts[0] != Sym("(") || !ts[1].Inner? || ts[2] != Sym(")") then None
    else if |ts| == 3 then Some((ts[1].tokens, ""))
    else if ts[|ts| - 1].Quoted? && (|ts| == 4 || (|ts| == 5 && ts[3] == Sym("AS"))) then Some((ts[1].tokens, ts[|ts| - 1].alias))
    else None
  }

  /** An embedded query, in whatever form the dialect writes its alias. */
  lemma {:induction false} EmbeddedReads(c: Compiler, sub: Out, alias: string)
    ensures ReadEmbedded(Embedded(c, sub, alias).sql) == Some((sub.sql, alias))
  {
  }

  // ----- combined queries ------------------------------------------------------------------------

  /** A combined query as printed. */
  datatype Member = Member(operation: string, all: bool, sql: seq<Token>)

  function ReadMember(ts: seq<Token>): Option<(Member, nat)> {
    if |ts| >= 2 && ts[0].Sym? && ts[1].Inner? then Some((Member(ts[0].text, false, ts[1].tokens), 2))
    else if |ts| >= 3 && ts[0].Sym? && ts[1] == Sym("ALL") && ts[2].Inner? then Some((Member(ts[0].text, true, ts[2].tokens), 3))
    else None
  }

  function ReadMembers(ts: seq<Token>): Option<seq<Member>>
    decreases |ts|
  {
    if ts == [] then Some([])
    else
      match ReadMember(ts)
      case None => None
      case Some((member, n)) =>
        if |ts| == n then Some([member])
        else if ts[n] != Sym("") || |ts| == n + 1 then None
        else match ReadMembers(ts[n + 1..]) case None => None case Some(members) => Some([member] + members)
  }

  function Members(c: Compiler, env: Env, cs: seq<Clause>): seq<Member>
    requires forall cl <- cs :: cl.body.CombineQuery?
  {
    if cs == [] then []
    else
      var CombineQuery(operation, all, q) := cs[0].body;
      [Member(S.Upper(operation), all, EmitSelect(c, env, q).sql)] + Members(c, env, cs[1..])
  }

  lemma {:induction false} MemberReads(o: Out, operation: string, all: bool, rest: seq<Token>)
    ensures var ts := CombineOut(operation, all, o).sql;
      && |ts| == (if all then 3 else 2)
      && ReadMember(ts + rest) == Some((Member(S.Upper(operation), all, o.sql), |ts|))
  {
    hide S.Upper;
  }

  lemma {:induction false} MembersRead(c: Compiler, env: Env, cs: seq<Clause>)
    requires forall cl <- cs :: cl.body.CombineQuery?
    ensures ReadMembers(Joined(EmitClauses(c, env, cs), "").sql) == Some(Members(c, env, cs))
    ensures |EmitClauses(c, env, cs)| == |cs|
  {
    if cs == [] {
    } else {
      var CombineQuery(operation, all, q) := cs[0].body;
      var sub := EmitSelect(c, env, q);
      MemberPrints(c, env, cs);
      MembersRead(c, env, cs[1..]);
      hide EmitSelect, EmitClauses, S.Upper, ReadMembers, CombineOut, Joined;
      if |cs| > 1 {
        MemberThen(sub, operation, all, Joined(EmitClauses(c, env, cs[1..]), "").sql);
      } else {
        LastMember(sub, operation, all);
        assert Members(c, env, cs[1..]) == [];
        assert [Member(S.Upper(operation), all, sub.sql)] + [] == [Member(S.Upper(operation), all, sub.sql)];
      }
    }
  }

  lemma {:induction false} MemberPrints(c: Compiler, env: Env, cs: seq<Clause>)
    requires cs != [] && cs[0].body.CombineQuery?
    ensures var CombineQuery(operation, all, q) := cs[0].body; var first := CombineOut(operation, all, EmitSelect(c, env, q)).sql;
      Joined(EmitClauses(c, env, cs), "").sql ==
        if |cs| == 1 then first else first + ([Sym("")] + Joined(EmitClauses(c, env, cs[1..]), "").sql)
  {
    hide EmitSelect, CombineOut;
    var parts := EmitClauses(c, env, cs);
    assert parts[0] == EmitClause(c, env, cs[0]) && parts[1..] == EmitClauses(c, env, cs[1..]);
  }

  lemma {:induction false} LastMember(sub: Out, operation: string, all: bool)
    ensures ReadMembers(CombineOut(operation, all, sub).sql) == Some([Member(S.Upper(operation), all, sub.sql)])
  {
    MemberReads(sub, operation, all, []);
    var ts := CombineOut(operation, all, sub).sql;
    assert ts + [] == ts;
    hide CombineOut, ReadMember, S.Upper;
  }

  lemma {:induction false} MemberThen(sub: Out, operation: string, all: bool, more: seq<Token>)
    requires more != []
    ensures ReadMembers(CombineOut(operation, all, sub).sql + ([Sym("")] + more)) ==
      match ReadMembers(more) case None => None case Some(members) => Some([Member(S.Upper(operation), all, sub.sql)] + members)
  {
    MemberReads(sub, operation, all, [Sym("")] + more);
    var first := CombineOut(operation, all, sub).sql;
    var ts := first + ([Sym("")] + more);
    hide CombineOut, ReadMember, S.Upper;
    assert ts[|first|] == Sym("") && ts[|first| + 1..] == more;
  }

  /** The combined queries, read back: their operations in order, ALL exactly where it
      was asked for, and the query that each embeds. */
  lemma {:induction false} CombinedReads(c: Compiler, outer: Env, q: Query)
    requires Built(q.clauses) && NamedJoins(Components(q.clauses, Joins, c.Engine()))
    requires NamedCombines(Components(q.clauses, Combine, c.Engine()))
    ensures ReadMembers(ReadSections(Unwrapped(EmitQuery(c, outer, q).sql)).combined)
         == Some(Members(c, outer + q.variables, Components(q.clauses, Combine, c.Engine())))
  {
    SelectReads(c, outer, q);
    ReadSame(c, q, Combine);
    ChosenIs(c, q.clauses, Combine);
    MembersRead(c, outer + q.variables, Components(q.clauses, Combine, c.Engine()));
    hide EmitQuery, ReadSections, Unwrapped, Components, EmitClauses, Built, TableSection, HeadSection, ConditionSection,
      Emit.Listed, LimitSection, LimitOf, OffsetOf, Chosen, Joined, NamedJoins, ReadMembers, Members, Read;
  }

  // ----- DISTINCT --------------------------------------------------------------------------------

  predicate ReadDistinct(head: seq<Token>) { |head| >= 2 && head[1] == Sym("DISTINCT") }

  lemma {:induction false} HeadDistinct(c: Compiler, env: Env, q: Query)
    requires Built(q.clauses) && One(q.clauses, Aggregate, c.Engine()).None?
    ensures ReadDistinct(HeadSection(c, q, EmitClauses(c, env, Chosen(c, q.clauses, Select))).sql) <==> q.distinct
  {
    var columns := EmitClauses(c, env, Chosen(c, q.clauses, Select));
    var rest := HeadRest(c, q, columns).sql;
    var top := TopSection(c, LimitOf(c, q.clauses), OffsetOf(c, q.clauses)).sql;
    HeadIs(c, q, columns);
    W.HeadRestIsSafe(c, env, q, [Sym("FROM")]);
    W.TopAndTail(c, false, LimitOf(c, q.clauses), OffsetOf(c, q.clauses));
    assert Start(c, q) == [Sym("SELECT")] + if q.distinct then [Sym("DISTINCT")] else [];
    hide HeadSection, HeadRest, TopSection, LimitSection, EmitClauses, LimitOf, OffsetOf, Chosen, Built, One, Calm, Quiet;
    SecondToken(q.distinct, top, rest);
  }

  lemma {:induction false} SecondToken(distinct: bool, top: seq<Token>, rest: seq<Token>)
    requires W.IsTop(top) && W.SafeHead(rest + [Sym("FROM")])
    ensures ReadDistinct(([Sym("SELECT")] + if distinct then [Sym("DISTINCT")] else []) + (top + rest)) <==> distinct
  {
    if top == [] {
      assert top + rest == rest;
      if rest != [] { assert (rest + [Sym("FROM")])[0] == rest[0]; }
    } else {
      assert |"TOP ("| == 5 && |"DISTINCT"| == 8;
    }
  }

  /** Outside aggregate shape: the printed projection is DISTINCT exactly when the query
      is. */
  lemma {:induction false} DistinctReads(c: Compiler, outer: Env, q: Query)
    requires Built(q.clauses) && NamedJoins(Components(q.clauses, Joins, c.Engine()))
    requires NamedCombines(Components(q.clauses, Combine, c.Engine()))
    requires One(q.clauses, Aggregate, c.Engine()).None?
    ensures ReadDistinct(ReadSections(Unwrapped(EmitQuery(c, outer, q).sql)).head) <==> q.distinct
  {
    var n := Read(c, q);
    SelectReads(c, outer, q);
    ReadBuilt(c, q);
    hide EmitQuery, ReadSections, Unwrapped, Built, NamedCombines, NamedJoins, ReadDistinct, HeadSection, EmitClauses, Chosen,
      TableSection, ConditionSection, Emit.Listed, LimitSection, LimitOf, OffsetOf, Joined, One, Read, Components;
    HeadDistinct(c, outer + q.variables, n);
  }

  lemma {:induction false} ReadBuilt(c: Compiler, q: Query)
    requires Built(q.clauses) && NamedJoins(Components(q.clauses, Joins, c.Engine()))
    ensures Built(Read(c, q).clauses) && Read(c, q).distinct == q.distinct
    ensures One(Read(c, q).clauses, Aggregate, c.Engine()) == One(q.clauses, Aggregate, c.Engine())
  {
    hide NamedJoins, Built, Components;
    if Recompiled(c, q) {
      Pages.CloneIsBuilt(c, q);
      Pages.CloneSections(c, q, Aggregate);
    }
  }

  /** Whether a program removes duplicates, in or outside of engine blocks. */
  predicate Deduplicates(program: seq<B.Step>)
    decreases program
  {
    program != []
    && (program[0].Deduplicate? || (program[0].Within? && Deduplicates(program[0].program)) || Deduplicates(program[1..]))
  }

  lemma {:induction false} RunDistinct(q: Query, program: seq<B.Step>)
    ensures B.Run(q, program).distinct == (q.distinct || Deduplicates(program))
    decreases program
  {
    if program != [] {
      if program[0].Within? { RunDistinct(q.(engineScope := program[0].engine), program[0].program); }
      StepDistinct(q, program[0]);
      hide B.Apply;
      RunDistinct(B.Apply(q, program[0]), program[1..]);
    }
  }

  lemma {:induction false} StepDistinct(q: Query, step: B.Step)
    ensures !step.Within? ==> B.Apply(q, step).distinct == (q.distinct || step.Deduplicate?)
    ensures step.Within? ==> B.Apply(q, step).distinct == B.Run(q.(engineScope := step.engine), step.program).distinct
  {
    hide B.Run, B.Outside, B.SlotOf;
    if step.Write? { AddedDistinct(B.DropInScope(q.(verb := step.verb), step.section), step.bodies); }
  }

  lemma {:induction false} AddedDistinct(q: Query, bodies: seq<Body>)
    ensures B.AddAll(q, bodies).distinct == q.distinct
    decreases |bodies|
  {
    if bodies != [] { AddedDistinct(B.AddClause(q, bodies[0]), bodies[1..]); }
  }

  /** For every program outside aggregate shape: what is printed removes duplicates
      exactly when a verb of the program says so. */
  lemma {:induction false} DistinctVerb(c: Compiler, outer: Env, program: seq<B.Step>)
    requires B.AllLegal(program)
    requires var cs := B.Run(EmptyQuery, program).clauses;
      NamedCombines(Components(cs, Combine, c.Engine())) && One(cs, Aggregate, c.Engine()).None?
    ensures ReadDistinct(ReadSections(Unwrapped(EmitQuery(c, outer, B.Run(EmptyQuery, program)).sql)).head) <==> Deduplicates(program)
  {
    var q := B.Run(EmptyQuery, program);
    PR.ProgramsAreBuilt(program);
    RunDistinct(EmptyQuery, program);
    assert NamedJoins(Components(q.clauses, Joins, c.Engine()));
    hide B.Run, B.AllLegal, EmitQuery, ReadSections, Unwrapped, Built, NamedCombines, NamedJoins, ReadDistinct, Components, One;
    DistinctReads(c, outer, q);
  }
}
