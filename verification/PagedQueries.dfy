/** Pagination of whole queries: which text and which arguments a limit and an
    offset add to the query without them. */
module PagedQueries {
  import opened Ast
  import opened Dialects
  import opened Emit
  import P = Paging
  import FM = FilterMeaning
  import S = Strings

  /** The query without its limit and offset. */
  function Unpaged(q: Query): Query { Drop(q, {Limit, Offset}) }

  // ----- sections that pagination leaves alone ----------------------------------------------

  lemma {:induction false} ChosenUnpaged(c: Compiler, cs: seq<Clause>, of: Component)
    requires of != Limit && of != Offset
    ensures Chosen(c, Without(cs, {Limit, Offset}), of) == Chosen(c, cs, of)
    ensures Components(Without(cs, {Limit, Offset}), of, c.Engine()) == Components(cs, of, c.Engine())
  {
    ComponentsWithout(cs, {Limit, Offset}, of, c.Engine());
    ComponentsWithout(cs, {Limit, Offset}, From, c.Engine());
    ComponentsWithout(cs, {Limit, Offset}, Aggregate, c.Engine());
  }

  lemma {:induction false} PartsUnpaged(c: Compiler, env: Env, cs: seq<Clause>)
    ensures EmitParts(c, env, Without(cs, {Limit, Offset})) == EmitParts(c, env, cs)
  {
    ChosenUnpaged(c, cs, Select);
    ChosenUnpaged(c, cs, From);
    ChosenUnpaged(c, cs, Joins);
    ChosenUnpaged(c, cs, Where);
    ChosenUnpaged(c, cs, Group);
    ChosenUnpaged(c, cs, Having);
    ChosenUnpaged(c, cs, Combine);
    hide Chosen, EmitClauses, Without;
  }

  lemma {:induction false} NoPages(c: Compiler, cs: seq<Clause>)
    ensures LimitOf(c, Without(cs, {Limit, Offset})) == 0 && OffsetOf(c, Without(cs, {Limit, Offset})) == 0
  {
    ComponentsDropped(cs, {Limit, Offset}, Limit, c.Engine());
    ComponentsDropped(cs, {Limit, Offset}, Offset, c.Engine());
  }

  /** Where TOP goes: after SELECT, and after DISTINCT outside aggregate shape. */
  function Start(c: Compiler, q: Query): seq<Token> {
    var cl := One(q.clauses, Aggregate, c.Engine());
    if cl.Some? && cl.value.body.Aggregated? then [Sym("SELECT")]
    else [Sym("SELECT")] + if q.distinct then [Sym("DISTINCT")] else []
  }

  /** The head of a SELECT after the place of TOP. */
  function HeadRest(c: Compiler, q: Query, columns: seq<Out>): Out {
    var cl := One(q.clauses, Aggregate, c.Engine());
    if cl.Some? && cl.value.body.Aggregated? then
      if |cl.value.body.columns| != 1 then Word("1")
      else Text([Sym(S.Upper(cl.value.body.kind) + "(")] + (if q.distinct then [Sym("DISTINCT")] else [])
                + [Ident(cl.value.body.columns[0]), Sym(")")] + NameText(c, cl.value.body.kind))
    else if columns == [] then Word("*") else Joined(columns, ",")
  }

  lemma {:induction false} HeadIs(c: Compiler, q: Query, columns: seq<Out>)
    ensures HeadSection(c, q, columns)
         == Cat(Text(Start(c, q)), Cat(TopSection(c, LimitOf(c, q.clauses), OffsetOf(c, q.clauses)), HeadRest(c, q, columns)))
  {
    hide One, LimitOf, OffsetOf, TopSection, AliasText;
  }

  lemma {:induction false} SameStart(c: Compiler, q: Query, columns: seq<Out>)
    ensures Start(c, Unpaged(q)) == Start(c, q) && HeadRest(c, Unpaged(q), columns) == HeadRest(c, q, columns)
  {
    ChosenUnpaged(c, q.clauses, Aggregate);
    hide Components, Without, AliasText, Joined;
  }

  /** The sections between the head and the pagination section. */
  function Middle(c: Compiler, q: Query, p: Parts): Out
    requires PartsFit(c, q.clauses, p)
  {
    Cat(Cat(Word("FROM"), TableSection(p.table)),
    Cat(Joined(p.joins, ""),
    Cat(ConditionSection("WHERE", Chosen(c, q.clauses, Where), p.wheres),
    Cat(Listed("GROUP BY", p.groups, ","),
    Cat(ConditionSection("HAVING", Chosen(c, q.clauses, Having), p.havings),
        OrdersOut(OrderParts(c, Components(q.clauses, Order, c.Engine()))))))))
  }

  lemma {:induction false} CatAssoc(x: Out, y: Out, z: Out)
    ensures Cat(Cat(x, y), z) == Cat(x, Cat(y, z))
  {
  }

  lemma {:induction false} CatNothing(x: Out)
    ensures Cat(x, Nothing) == x && Cat(Nothing, x) == x
  {
  }

  lemma {:induction false} AssembleIs(c: Compiler, q: Query, p: Parts)
    requires PartsFit(c, q.clauses, p) && p.combines == []
    ensures Assemble(c, q, p) == Cat(HeadSection(c, q, p.columns), Cat(Middle(c, q, p),
      LimitSection(c, Components(q.clauses, Order, c.Engine()) != [], LimitOf(c, q.clauses), OffsetOf(c, q.clauses))))
  {
    var from, joins := Cat(Word("FROM"), TableSection(p.table)), Joined(p.joins, "");
    var where := ConditionSection("WHERE", Chosen(c, q.clauses, Where), p.wheres);
    var group := Listed("GROUP BY", p.groups, ",");
    var having := ConditionSection("HAVING", Chosen(c, q.clauses, Having), p.havings);
    var order := OrdersOut(OrderParts(c, Components(q.clauses, Order, c.Engine())));
    var page := LimitSection(c, Components(q.clauses, Order, c.Engine()) != [], LimitOf(c, q.clauses), OffsetOf(c, q.clauses));
    assert Joined(p.combines, "") == Nothing;
    hide HeadSection, TableSection, ConditionSection, Listed, OrdersOut, LimitSection, Components, Chosen, LimitOf, OffsetOf,
      Cat, Joined;
    CatNothing(page);
    SixThen(from, joins, where, group, having, order, page);
  }

  lemma {:induction false} SixThen(a: Out, b: Out, d: Out, e: Out, f: Out, g: Out, h: Out)
    ensures Cat(a, Cat(b, Cat(d, Cat(e, Cat(f, Cat(g, h)))))) == Cat(Cat(a, Cat(b, Cat(d, Cat(e, Cat(f, g))))), h)
  {
    hide Cat;
    CatAssoc(f, g, h);
    CatAssoc(e, Cat(f, g), h);
    CatAssoc(d, Cat(e, Cat(f, g)), h);
    CatAssoc(b, Cat(d, Cat(e, Cat(f, g))), h);
    CatAssoc(a, Cat(b, Cat(d, Cat(e, Cat(f, g)))), h);
  }

  lemma {:induction false} SameMiddle(c: Compiler, q: Query, p: Parts)
    requires PartsFit(c, q.clauses, p)
    ensures PartsFit(c, Unpaged(q).clauses, p) && Middle(c, Unpaged(q), p) == Middle(c, q, p)
  {
    ChosenUnpaged(c, q.clauses, Where);
    ChosenUnpaged(c, q.clauses, Having);
    ChosenUnpaged(c, q.clauses, Order);
    hide Components, Without, Chosen, ConditionSection, OrderParts, OrdersOut, Joined;
  }

  lemma {:induction false} NoTail(c: Compiler, ordered: bool)
    ensures LimitSection(c, ordered, 0, 0) == Nothing && TopSection(c, 0, 0) == Nothing
  {
  }

  lemma {:induction false} CombinesEmpty(c: Compiler, env: Env, cs: seq<Clause>)
    requires Components(cs, Combine, c.Engine()) == []
    ensures EmitParts(c, env, cs).combines == []
  {
  }

  /** What a SELECT prints between the place of TOP and the pagination section. */
  function Rest(c: Compiler, outer: Env, q: Query): Out {
    var p := EmitParts(c, outer + q.variables, q.clauses);
    Cat(HeadRest(c, q, p.columns), Middle(c, q, p))
  }

  /** A limit and an offset add TOP right after SELECT and a section at the end, and
      change nothing else: neither the text between nor its arguments. */
  lemma {:induction false} PagedPrints(c: Compiler, outer: Env, q: Query)
    requires Components(q.clauses, Combine, c.Engine()) == []
    requires !Recompiled(c, q) && c.dialect != Oracle(true)
    ensures var rest := Rest(c, outer, q);
      && EmitQuery(c, outer, Unpaged(q)) == Cat(Text(Start(c, q)), rest)
      && EmitQuery(c, outer, q) ==
           Cat(Text(Start(c, q)), Cat(TopSection(c, LimitOf(c, q.clauses), OffsetOf(c, q.clauses)), Cat(rest,
             LimitSection(c, Components(q.clauses, Order, c.Engine()) != [], LimitOf(c, q.clauses), OffsetOf(c, q.clauses)))))
  {
    var p := EmitParts(c, outer + q.variables, q.clauses);
    var rest := Cat(HeadRest(c, q, p.columns), Middle(c, q, p));
    assert rest == Rest(c, outer, q);
    var top := TopSection(c, LimitOf(c, q.clauses), OffsetOf(c, q.clauses));
    var page := LimitSection(c, Components(q.clauses, Order, c.Engine()) != [], LimitOf(c, q.clauses), OffsetOf(c, q.clauses));
    NoPages(c, q.clauses);
    PartsUnpaged(c, outer + q.variables, q.clauses);
    CombinesEmpty(c, outer + q.variables, q.clauses);
    EmitAssembled(c, outer, q);
    EmitAssembled(c, outer, Unpaged(q));
    SameMiddle(c, q, p);
    SameStart(c, q, p.columns);
    hide EmitQuery, EmitParts, Assemble, HeadSection, Middle, HeadRest, Start, TopSection, LimitSection, Components, Without,
      LimitOf, OffsetOf, Cat;
    AssembleIs(c, q, p);
    AssembleIs(c, Unpaged(q), p);
    HeadIs(c, q, p.columns);
    HeadIs(c, Unpaged(q), p.columns);
    NoTail(c, Components(Unpaged(q).clauses, Order, c.Engine()) != []);
    PagedStep(Text(Start(c, q)), top, HeadRest(c, q, p.columns), Middle(c, q, p), page);
    assert EmitQuery(c, outer, Unpaged(q)) == Cat(Text(Start(c, q)), rest);
  }

  lemma {:induction false} PagedStep(start: Out, top: Out, head: Out, middle: Out, page: Out)
    ensures Cat(Cat(start, Cat(top, head)), Cat(middle, page)) == Cat(start, Cat(top, Cat(Cat(head, middle), page)))
    ensures Cat(Cat(start, Cat(Nothing, head)), Cat(middle, Nothing)) == Cat(start, Cat(head, middle))
  {
    hide Cat;
    CatAssoc(start, Cat(top, head), Cat(middle, page));
    CatAssoc(top, head, Cat(middle, page));
    CatAssoc(head, middle, page);
    CatNothing(head);
    CatNothing(middle);
    CatAssoc(start, head, middle);
  }

  /** Oracle's legacy form wraps exactly the query without pagination. */
  lemma {:induction false} RownumPrints(c: Compiler, outer: Env, q: Query)
    requires Components(q.clauses, Combine, c.Engine()) == [] && c.dialect == Oracle(true)
    ensures EmitQuery(c, outer, q)
         == RownumWrap(EmitQuery(c, outer, Unpaged(q)), LimitOf(c, q.clauses), OffsetOf(c, q.clauses))
  {
    var p := EmitParts(c, outer + q.variables, q.clauses);
    NoPages(c, q.clauses);
    PartsUnpaged(c, outer + q.variables, q.clauses);
    CombinesEmpty(c, outer + q.variables, q.clauses);
    EmitAssembled(c, outer, q);
    EmitAssembled(c, outer, Unpaged(q));
    SameMiddle(c, q, p);
    SameStart(c, q, p.columns);
    OracleNoSections(c, Components(q.clauses, Order, c.Engine()) != [], LimitOf(c, q.clauses), OffsetOf(c, q.clauses));
    NoTail(c, Components(Unpaged(q).clauses, Order, c.Engine()) != []);
    hide EmitQuery, EmitParts, Assemble, HeadSection, Middle, HeadRest, Start, TopSection, LimitSection, Components, Without,
      LimitOf, OffsetOf, Cat, RownumWrap;
    AssembleIs(c, q, p);
    AssembleIs(c, Unpaged(q), p);
    HeadIs(c, q, p.columns);
    HeadIs(c, Unpaged(q), p.columns);
    RownumOfNothing(Assemble(c, Unpaged(q), p));
  }

  lemma {:induction false} OracleNoSections(c: Compiler, ordered: bool, limit: int, offset: int)
    requires c.dialect == Oracle(true)
    ensures LimitSection(c, ordered, limit, offset) == Nothing && TopSection(c, limit, offset) == Nothing
  {
  }

  lemma {:induction false} RownumOfNothing(body: Out)
    ensures RownumWrap(body, 0, 0) == body
  {
  }

  // ----- bindings of the legacy ROW_NUMBER form ----------------------------------------------------

  lemma {:induction false} JoinedArgs(parts: seq<Out>, sep: string)
    ensures Joined(parts, sep).args == FM.ArgsOf(parts)
  {
    if |parts| > 1 {
      JoinedArgs(parts[1..], sep);
    } else if |parts| == 1 {
      assert parts[1..] == [];
    }
  }

  /** The columns that the clone gains, and what they bind. */
  lemma {:induction false} AddedColumns(c: Compiler, env: Env, q: Query)
    requires AppendsVisibly(c, q)
    ensures var added := Stamp(q.engineScope, RowNumberColumns(c, q));
      && added != [] && Components(added, Select, c.Engine()) == added
      && (forall of: Component :: of != Select ==> Components(added, of, c.Engine()) == [])
      && FM.ArgsOf(EmitClauses(c, env, added)) == OrderArgs(c, q)
  {
    var added := Stamp(q.engineScope, RowNumberColumns(c, q));
    NumberColumn(c, env, q);
    AddedAreColumns(c, q);
    hide RowNumberColumns, OrderArgs, Stamp;
    forall of: Component | of != Select ensures Components(added, of, c.Engine()) == [] {
      NoComponents(added, of, c.Engine());
    }
    if |added| == 2 {
      assert added[1..] == [added[1]] && [added[1]][1..] == [];
      assert EmitClause(c, env, added[0]) == Text([Ident("*")]);
      assert Components([added[1]], Select, c.Engine()) == [added[1]];
      FM.OneArgs(c, env, added[1]);
    } else {
      assert added[1..] == [];
      FM.OneArgs(c, env, added[0]);
      assert added == [added[0]];
    }
  }

  lemma {:induction false} AddedAreColumns(c: Compiler, q: Query)
    ensures var added := Stamp(q.engineScope, RowNumberColumns(c, q));
      && 1 <= |added| <= 2 && forall cl <- added :: Tag(cl) == Select && cl.engine == q.engineScope
  {
    hide OrderParts, OrdersOut, Components, Without;
  }

  lemma {:induction false} NumberColumn(c: Compiler, env: Env, q: Query)
    ensures var added := Stamp(q.engineScope, RowNumberColumns(c, q));
      && (|added| == 1 || (|added| == 2 && added[0] == Clause(q.engineScope, Column(Select, "*"))))
      && EmitClause(c, env, added[|added| - 1]).args == OrderArgs(c, q)
  {
    NoOrders(c);
    hide OrderParts, OrdersOut, Components, Without;
  }

  lemma {:induction false} NoOrders(c: Compiler)
    ensures OrderParts(c, []) == [] && OrdersOut([]) == Nothing
  {
  }

  /** What the ordering binds. */
  function OrderArgs(c: Compiler, q: Query): seq<Value> {
    OrdersOut(OrderParts(c, Components(q.clauses, Order, c.Engine()))).args
  }

  lemma {:induction false} NumberedSection(c: Compiler, q: Query, of: Component)
    requires AppendsVisibly(c, q)
    ensures Components(RowNumbered(c, q).clauses, of, c.Engine()) ==
      if of in {Order, Limit, Offset} then []
      else Components(q.clauses, of, c.Engine())
           + (if of == Select then Stamp(q.engineScope, RowNumberColumns(c, q)) else [])
  {
    var bare := Without(q.clauses, {Order, Limit, Offset});
    var added := Stamp(q.engineScope, RowNumberColumns(c, q));
    hide RowNumberColumns, OrderArgs, Stamp, Components, Without, AppendsVisibly;
    AddedColumns(c, map[], q);
    ComponentsConcat(bare, added, of, c.Engine());
    BareSection(c, q.clauses, of);
    if of != Select {
      assert Components(added, of, c.Engine()) == [];
      assert Components(bare, of, c.Engine()) + [] == Components(bare, of, c.Engine());
      assert of !in {Order, Limit, Offset} ==> Components(q.clauses, of, c.Engine()) + [] == Components(q.clauses, of, c.Engine());
    }
  }

  lemma {:induction false} BareSection(c: Compiler, cs: seq<Clause>, of: Component)
    ensures Components(Without(cs, {Order, Limit, Offset}), of, c.Engine()) ==
      if of in {Order, Limit, Offset} then [] else Components(cs, of, c.Engine())
  {
    hide Components, Without;
    if of in {Order, Limit, Offset} { ComponentsDropped(cs, {Order, Limit, Offset}, of, c.Engine()); }
    else { ComponentsWithout(cs, {Order, Limit, Offset}, of, c.Engine()); }
  }

  function SelectArgs(c: Compiler, env: Env, cs: seq<Clause>): seq<Value> {
    FM.ArgsOf(EmitClauses(c, env, Chosen(c, cs, Select)))
  }

  function CombineArgs(c: Compiler, env: Env, cs: seq<Clause>): seq<Value> {
    FM.ArgsOf(EmitClauses(c, env, Chosen(c, cs, Combine)))
  }

  /** The sections between the projection and the ordering. */
  function BodyArgs(c: Compiler, env: Env, cs: seq<Clause>): seq<Value> {
    TableSection(EmitClauses(c, env, Chosen(c, cs, From))).args
    + FM.ArgsOf(EmitClauses(c, env, Chosen(c, cs, Joins)))
    + FM.ArgsOf(EmitClauses(c, env, Chosen(c, cs, Where)))
    + FM.ArgsOf(EmitClauses(c, env, Chosen(c, cs, Group)))
    + FM.ArgsOf(EmitClauses(c, env, Chosen(c, cs, Having)))
  }

  /** The arguments of a SELECT without pagination, section by section. */
  lemma {:induction false} PlainArgs(c: Compiler, outer: Env, q: Query)
    requires LimitOf(c, q.clauses) == 0 && OffsetOf(c, q.clauses) == 0 && One(q.clauses, Aggregate, c.Engine()).None?
    ensures var env := outer + q.variables;
      EmitQuery(c, outer, q).args ==
        SelectArgs(c, env, q.clauses) + BodyArgs(c, env, q.clauses)
        + OrderArgs(c, q) + CombineArgs(c, env, q.clauses)
  {
    hide EmitQuery, Assemble, HeadSection, TableSection, OrdersOut, OrderParts, LimitSection, Components, Chosen, EmitClauses,
      LimitOf, OffsetOf, FM.ArgsOf, TopSection, One;
    var env := outer + q.variables;
    var p := EmitParts(c, env, q.clauses);
    EmitAssembled(c, outer, q);
    AssembleArgs(c, q, p);
    NoTail(c, Components(q.clauses, Order, c.Engine()) != []);
    HeadArgs(c, q, p.columns);
    RownumOfNothing(Assemble(c, q, p));
    var rest := CombineArgs(c, env, q.clauses);
    assert [] + rest == rest;
  }

  lemma {:induction false} AssembleArgs(c: Compiler, q: Query, p: Parts)
    requires PartsFit(c, q.clauses, p)
    ensures Assemble(c, q, p).args ==
      HeadSection(c, q, p.columns).args
      + (TableSection(p.table).args + FM.ArgsOf(p.joins) + FM.ArgsOf(p.wheres) + FM.ArgsOf(p.groups) + FM.ArgsOf(p.havings))
      + OrderArgs(c, q)
      + (LimitSection(c, Components(q.clauses, Order, c.Engine()) != [], LimitOf(c, q.clauses), OffsetOf(c, q.clauses)).args
         + FM.ArgsOf(p.combines))
  {
    SectionArgs("WHERE", Chosen(c, q.clauses, Where), p.wheres);
    SectionArgs("HAVING", Chosen(c, q.clauses, Having), p.havings);
    JoinedArgs(p.joins, "");
    JoinedArgs(p.combines, "");
    ListedArgs("GROUP BY", p.groups, ",");
    hide HeadSection, TableSection, Joined, ConditionSection, Listed, OrdersOut, OrderParts, LimitSection, Components,
      Chosen, LimitOf, OffsetOf, FM.ArgsOf;
    NineArgs(HeadSection(c, q, p.columns).args, TableSection(p.table).args, FM.ArgsOf(p.joins), FM.ArgsOf(p.wheres),
             FM.ArgsOf(p.groups), FM.ArgsOf(p.havings), OrderArgs(c, q),
             LimitSection(c, Components(q.clauses, Order, c.Engine()) != [], LimitOf(c, q.clauses), OffsetOf(c, q.clauses)).args,
             FM.ArgsOf(p.combines));
  }

  lemma {:induction false} NineArgs(a: seq<Value>, b: seq<Value>, d: seq<Value>, e: seq<Value>, f: seq<Value>, g: seq<Value>,
                                    h: seq<Value>, i: seq<Value>, j: seq<Value>)
    ensures a + (([] + b) + (d + (e + (f + (g + (h + (i + j))))))) == a + (b + d + e + f + g) + h + (i + j)
  {
    assert [] + b == b;
  }

  lemma {:induction false} HeadArgs(c: Compiler, q: Query, columns: seq<Out>)
    requires LimitOf(c, q.clauses) == 0 && OffsetOf(c, q.clauses) == 0 && One(q.clauses, Aggregate, c.Engine()).None?
    ensures HeadSection(c, q, columns).args == FM.ArgsOf(columns)
  {
    JoinedArgs(columns, ",");
    hide One, LimitOf, OffsetOf, Joined;
  }

  lemma {:induction false} SectionArgs(keyword: string, cs: seq<Clause>, parts: seq<Out>)
    requires |cs| == |parts|
    ensures ConditionSection(keyword, cs, parts).args == FM.ArgsOf(parts)
  {
    FM.ConnectArgs(cs, parts, false);
  }

  lemma {:induction false} ListedArgs(keyword: string, parts: seq<Out>, sep: string)
    ensures Listed(keyword, parts, sep).args == FM.ArgsOf(parts)
  {
    JoinedArgs(parts, sep);
  }

  /** The bounds of the page. */
  function Bounds(limit: int, offset: int): seq<Value> {
    if limit <= 0 then [Num(Int64(offset + 1))] else [Num(Int64(offset + 1)), Num(Int64(limit + offset))]
  }

  lemma {:induction false} WrapArgs(inner: Out, limit: int, offset: int)
    ensures RowNumberWrap(inner, limit, offset).args == inner.args + Bounds(limit, offset)
  {
    var hi := Bind(Int64(limit + offset)).args;
    assert [Num(Int64(offset + 1))] + ([] + hi) == [Num(Int64(offset + 1)), Num(Int64(limit + offset))];
  }

  /** The legacy wrap binds what the query binds, with the bindings of the ordering
      moved to the end of the projection, and then the page bounds: nothing is lost,
      nothing doubled. */
  lemma {:induction false} RowNumberConserves(c: Compiler, outer: Env, q: Query)
    requires Recompiled(c, q) && AppendsVisibly(c, q) && One(q.clauses, Aggregate, c.Engine()).None?
    ensures var env := outer + q.variables;
      var columns := SelectArgs(c, env, q.clauses);
      var combined := CombineArgs(c, env, q.clauses);
      var bounds := Bounds(LimitOf(c, q.clauses), OffsetOf(c, q.clauses));
      var paged, plain := EmitQuery(c, outer, q).args, EmitQuery(c, outer, Unpaged(q)).args;
      && plain == columns + BodyArgs(c, env, q.clauses) + OrderArgs(c, q) + combined
      && paged == columns + OrderArgs(c, q) + BodyArgs(c, env, q.clauses) + combined + bounds
      && multiset(paged) == multiset(plain) + multiset(bounds)
  {
    hide EmitQuery, RowNumbered, BodyArgs, OrderArgs, SelectArgs, CombineArgs, LimitOf, OffsetOf, One, RowNumberWrap,
      Bounds, Unpaged, Recompiled, AppendsVisibly;
    var env := outer + q.variables;
    var n := RowNumbered(c, q);
    assert env + q.variables == env;
    UnpagedArgs(c, outer, q);
    NumberedArgs(c, env, q);
    EmitRecompiled(c, outer, q);
    WrapArgs(EmitQuery(c, env, n), LimitOf(c, q.clauses), OffsetOf(c, q.clauses));
    MovedBindings(SelectArgs(c, env, q.clauses), BodyArgs(c, env, q.clauses), OrderArgs(c, q),
                  CombineArgs(c, env, q.clauses),
                  Bounds(LimitOf(c, q.clauses), OffsetOf(c, q.clauses)));
  }

  lemma {:induction false} MovedBindings(columns: seq<Value>, body: seq<Value>, order: seq<Value>, combined: seq<Value>,
                                         bounds: seq<Value>)
    ensures multiset(columns + order + body + combined + bounds) == multiset(columns + body + order + combined) + multiset(bounds)
  {
  }

  lemma {:induction false} UnpagedArgs(c: Compiler, outer: Env, q: Query)
    requires One(q.clauses, Aggregate, c.Engine()).None?
    ensures var env := outer + q.variables;
      EmitQuery(c, outer, Unpaged(q)).args ==
        SelectArgs(c, env, q.clauses) + BodyArgs(c, env, q.clauses)
        + OrderArgs(c, q) + CombineArgs(c, env, q.clauses)
  {
    var u := Unpaged(q);
    NoPages(c, q.clauses);
    ChosenUnpaged(c, q.clauses, Select);
    ChosenUnpaged(c, q.clauses, From);
    ChosenUnpaged(c, q.clauses, Joins);
    ChosenUnpaged(c, q.clauses, Where);
    ChosenUnpaged(c, q.clauses, Group);
    ChosenUnpaged(c, q.clauses, Having);
    ChosenUnpaged(c, q.clauses, Combine);
    ChosenUnpaged(c, q.clauses, Order);
    ChosenUnpaged(c, q.clauses, Aggregate);
    hide EmitQuery, FM.ArgsOf, EmitClauses, Chosen, LimitOf, OffsetOf, Components, Without, TableSection, OrdersOut, OrderParts;
    PlainArgs(c, outer, u);
  }

  lemma {:induction false} NumberedArgs(c: Compiler, env: Env, q: Query)
    requires AppendsVisibly(c, q) && One(q.clauses, Aggregate, c.Engine()).None? && env + q.variables == env
    ensures EmitQuery(c, env, RowNumbered(c, q)).args ==
      SelectArgs(c, env, q.clauses) + OrderArgs(c, q) + BodyArgs(c, env, q.clauses)
      + CombineArgs(c, env, q.clauses)
  {
    hide EmitQuery, LimitOf, OffsetOf, RowNumbered, OrderArgs, One, BodyArgs, SelectArgs, CombineArgs, AppendsVisibly;
    var n := RowNumbered(c, q);
    NumberedSections(c, q);
    NumberedVariables(c, q);
    NumberedParts(c, env, q);
    PlainArgs(c, env, n);
    EmptyBetween(SelectArgs(c, env, q.clauses) + OrderArgs(c, q), BodyArgs(c, env, q.clauses), CombineArgs(c, env, q.clauses));
  }

  lemma {:induction false} EmptyBetween(a: seq<Value>, b: seq<Value>, d: seq<Value>)
    ensures a + b + [] + d == a + b + d
  {
  }

  lemma {:induction false} NumberedParts(c: Compiler, env: Env, q: Query)
    requires AppendsVisibly(c, q) && One(q.clauses, Aggregate, c.Engine()).None?
    ensures var n := RowNumbered(c, q).clauses;
      && SelectArgs(c, env, n) == SelectArgs(c, env, q.clauses) + OrderArgs(c, q)
      && BodyArgs(c, env, n) == BodyArgs(c, env, q.clauses) && CombineArgs(c, env, n) == CombineArgs(c, env, q.clauses)
      && OrderArgs(c, RowNumbered(c, q)) == []
  {
    hide AppendsVisibly, One, RowNumbered, BodyArgs, Components, LimitOf, OffsetOf, RowNumberColumns;
    var added := Stamp(q.engineScope, RowNumberColumns(c, q));
    NumberedSections(c, q);
    AddedColumns(c, env, q);
    FM.EmitConcat(c, env, Chosen(c, q.clauses, Select), added);
    SameBody(c, env, RowNumbered(c, q).clauses, q.clauses);
    assert Combine in {From, Joins, Where, Group, Having, Combine};
  }

  lemma {:induction false} SameBody(c: Compiler, env: Env, a: seq<Clause>, b: seq<Clause>)
    requires forall of <- {From, Joins, Where, Group, Having, Combine} :: Chosen(c, a, of) == Chosen(c, b, of)
    ensures BodyArgs(c, env, a) == BodyArgs(c, env, b)
  {
    assert From in {From, Joins, Where, Group, Having, Combine} && Joins in {From, Joins, Where, Group, Having, Combine};
    assert Where in {From, Joins, Where, Group, Having, Combine} && Group in {From, Joins, Where, Group, Having, Combine};
    assert Having in {From, Joins, Where, Group, Having, Combine};
    hide Chosen, EmitClauses, FM.ArgsOf, TableSection;
  }

  lemma {:induction false} NumberedVariables(c: Compiler, q: Query)
    ensures RowNumbered(c, q).variables == q.variables
  {
  }

  lemma {:induction false} NumberedSections(c: Compiler, q: Query)
    requires AppendsVisibly(c, q) && One(q.clauses, Aggregate, c.Engine()).None?
    ensures var n := RowNumbered(c, q).clauses;
      && LimitOf(c, n) == 0 && OffsetOf(c, n) == 0 && One(n, Aggregate, c.Engine()).None?
      && Components(n, Order, c.Engine()) == []
      && Chosen(c, n, Select) == Chosen(c, q.clauses, Select) + Stamp(q.engineScope, RowNumberColumns(c, q))
      && (forall of <- {From, Joins, Where, Group, Having, Combine} :: Chosen(c, n, of) == Chosen(c, q.clauses, of))
  {
    hide Components, RowNumbered, RowNumberColumns, Stamp, AppendsVisibly;
    NumberedSection(c, q, Select);
    NumberedSection(c, q, Aggregate);
    NumberedSection(c, q, Order);
    NumberedSection(c, q, Limit);
    NumberedSection(c, q, Offset);
    hide One;
    var n := RowNumbered(c, q).clauses;
    NumberedSingles(c, n, q.clauses);
    forall of | of in {From, Joins, Where, Group, Having, Combine} ensures Chosen(c, n, of) == Chosen(c, q.clauses, of) {
      NumberedSection(c, q, of);
      NumberedChosen(c, n, q.clauses, of);
    }
  }

  lemma {:induction false} NumberedSingles(c: Compiler, n: seq<Clause>, cs: seq<Clause>)
    requires Components(n, Limit, c.Engine()) == [] && Components(n, Offset, c.Engine()) == []
    requires Components(n, Aggregate, c.Engine()) == Components(cs, Aggregate, c.Engine()) + []
    ensures LimitOf(c, n) == 0 && OffsetOf(c, n) == 0
    ensures One(n, Aggregate, c.Engine()) == One(cs, Aggregate, c.Engine())
  {
    hide Components;
    assert Components(cs, Aggregate, c.Engine()) + [] == Components(cs, Aggregate, c.Engine());
    assert FirstScoped([], c.Engine()).None? && FirstScoped([], "").None?;
  }

  lemma {:induction false} NumberedChosen(c: Compiler, a: seq<Clause>, b: seq<Clause>, of: Component)
    requires of != Select && Components(a, of, c.Engine()) == Components(b, of, c.Engine()) + []
    ensures Chosen(c, a, of) == Chosen(c, b, of)
  {
    assert Components(b, of, c.Engine()) + [] == Components(b, of, c.Engine());
    hide Components;
  }

  lemma {:induction false} Unseen(cs: seq<Clause>, of: Component, engine: string)
    requires forall cl <- cs :: !Visible(cl, engine)
    ensures Components(cs, of, engine) == []
  {
    if cs != [] { Unseen(cs[1..], of, engine); }
  }
}
