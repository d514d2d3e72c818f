/** What the condition verbs of a program ask for, by recursion on the program, and
    what the sections printed for it say: the same, for groups nested at any depth. */
module VerbMeaning {
  import opened Ast
  import opened Building
  import opened Conditions
  import opened Dialects
  import opened Emit
  import opened Placeholders
  import opened Sections
  import PR = Programs

  // ----- the meaning of a program --------------------------------------------------------------

  /** Whether a dialect sees what a verb adds in an engine scope. */
  predicate Sees(c: Compiler, scope: string) { c.Engine() == "" || scope == "" || scope == c.Engine() }

  /** The shape of a condition around a query built elsewhere. */
  function Around(shape: Shape, sub: Query): Shape {
    match shape
    case InQuery(column, _) => InQuery(column, sub)
    case SubQuery(_, op, value) => SubQuery(sub, op, value)
    case Exists(_) => Exists(sub)
    case _ => shape
  }

  /** A single test: its predicate, negated by the verb; raw text is taken as it stands. */
  function Test(c: Compiler, env: Env, I: Reading, not: bool, shape: Shape): Truth {
    if shape.RawCondition? then I(RawOut(c, shape.raw).sql)
    else NotIf(KeptNot(c, not, shape), I(ShapeOut(c, env, false, shape, EmitShape(c, env, shape)).sql))
  }

  predicate EmptyRaw(c: Compiler, shape: Shape) { shape.RawCondition? && ExpressionTokens(c, shape.raw) == [] }

  /** The conditions that a verb adds to a section: its connective and its truth.  A
      group is the truth of its own program, negated by its verb; a group without
      conditions is left out. */
  function StepItems(c: Compiler, env: Env, I: Reading, of: Component, scope: string, step: Step): seq<Item>
    decreases step, 0
  {
    match step
    case Add(Condition(section, or, not, shape)) =>
      if section == of && Sees(c, scope) && !EmptyRaw(c, shape) then [Item(or, Test(c, env, I, not, shape))] else []
    case AddWith(Condition(section, or, not, shape), program, alias) =>
      if section == of && Sees(c, scope) then
        [Item(or, Test(c, env, I, not, Around(shape, Renamed(Building.Run(EmptyQuery, program), alias))))]
      else []
    case AddGroup(section, or, not, program) =>
      var inner := ProgramItems(c, env, I, Where, "", program);
      if section == of && Sees(c, scope) && inner != [] then [Item(or, NotIf(not, AnyOf(Conditions.Runs(inner))))] else []
    case Within(engine, program) => ProgramItems(c, env, I, of, engine, program)
    case _ => []
  }

  /** After an engine block, verbs add to all dialects again. */
  function ProgramItems(c: Compiler, env: Env, I: Reading, of: Component, scope: string, program: seq<Step>): seq<Item>
    decreases program, 1
  {
    if program == [] then []
    else
      StepItems(c, env, I, of, scope, program[0])
      + ProgramItems(c, env, I, of, if program[0].Within? then "" else scope, program[1..])
  }

  /** A row passes when some run of conditions joined by AND does, and when there is
      no condition. */
  function Passes(items: seq<Item>): Truth { if items == [] then True else AnyOf(Conditions.Runs(items)) }

  function Asks(c: Compiler, env: Env, I: Reading, of: Component, program: seq<Step>): Truth {
    Passes(ProgramItems(c, env, I, of, "", program))
  }

  // ----- the sections of the built query -----------------------------------------------------------

  lemma {:induction false} ItemsConcat(c: Compiler, env: Env, I: Reading, a: seq<Clause>, b: seq<Clause>)
    ensures Items(c, env, I, a + b) == Items(c, env, I, a) + Items(c, env, I, b)
  {
    hide Omitted, Says;
    if a == [] {
      assert a + b == b;
    } else {
      assert (a + b)[1..] == a[1..] + b;
      ItemsConcat(c, env, I, a[1..], b);
    }
  }

  lemma {:induction false} NoItems(c: Compiler, env: Env, I: Reading, cs: seq<Clause>)
    requires forall cl <- cs :: cl.body.Condition?
    ensures Items(c, env, I, cs) == [] <==> OmittedAll(c, cs)
  {
    hide Omitted, Says;
    if cs != [] { NoItems(c, env, I, cs[1..]); }
  }

  lemma {:induction false} OneComponent(cl: Clause, of: Component, engine: string)
    ensures Components([cl], of, engine) == if Tag(cl) == of && Visible(cl, engine) then [cl] else []
  {
    hide Tag, Visible;
    assert [cl][1..] == [];
  }

  /** Setting or replacing a clause leaves the other sections alone. */
  lemma {:induction false} PutKeeps(q: Query, body: Body, of: Component, engine: string)
    requires Tag(Clause("", body)) != of
    ensures Components(SetOrReplace(q, body).clauses, of, engine) == Components(q.clauses, of, engine)
  {
    var cl := Clause(q.engineScope, body);
    TagIsBody(cl);
    var cs, i := q.clauses, SlotOf(q.clauses, Tag(cl), q.engineScope);
    hide Tag, Visible, Components, SlotOf;
    OneComponent(cl, of, engine);
    if i < |cs| {
      OneComponent(cs[i], of, engine);
      assert cs[i := cl] == (cs[..i] + [cl]) + cs[i + 1..] && cs == (cs[..i] + [cs[i]]) + cs[i + 1..];
      ComponentsConcat(cs[..i] + [cl], cs[i + 1..], of, engine);
      ComponentsConcat(cs[..i] + [cs[i]], cs[i + 1..], of, engine);
      ComponentsConcat(cs[..i], [cl], of, engine);
      ComponentsConcat(cs[..i], [cs[i]], of, engine);
    } else {
      ComponentsConcat(cs, [cl], of, engine);
    }
  }

  lemma {:induction false} OutsideKeepsSection(cs: seq<Clause>, dropped: Component, scope: string, of: Component, engine: string)
    requires of != dropped
    ensures Components(Outside(cs, dropped, scope), of, engine) == Components(cs, of, engine)
  {
    hide Tag, Visible, Components;
    if cs != [] {
      var kept := Outside(cs[1..], dropped, scope);
      OutsideKeepsSection(cs[1..], dropped, scope, of, engine);
      assert cs == [cs[0]] + cs[1..];
      OneComponent(cs[0], of, engine);
      ComponentsConcat([cs[0]], cs[1..], of, engine);
      ComponentsConcat([cs[0]], kept, of, engine);
      assert [] + kept == kept && [] + Components(kept, of, engine) == Components(kept, of, engine);
    }
  }

  lemma {:induction false} AddedSection(q: Query, body: Body, of: Component, engine: string)
    ensures var cl := Clause(q.engineScope, body);
      Components(AddClause(q, body).clauses, of, engine) ==
        Components(q.clauses, of, engine) + if Tag(cl) == of && Visible(cl, engine) then [cl] else []
  {
    ComponentsConcat(q.clauses, [Clause(q.engineScope, body)], of, engine);
    OneComponent(Clause(q.engineScope, body), of, engine);
  }

  lemma {:induction false} AddedElsewhere(q: Query, body: Body, of: Component, engine: string)
    requires Tag(Clause("", body)) != of
    ensures Components(AddClause(q, body).clauses, of, engine) == Components(q.clauses, of, engine)
  {
    hide Tag, Components, AddClause;
    AddedSection(q, body, of, engine);
    TagIsBody(Clause(q.engineScope, body));
    assert Components(q.clauses, of, engine) + [] == Components(q.clauses, of, engine);
  }

  lemma {:induction false} AddedAllKeep(q: Query, bodies: seq<Body>, of: Component, engine: string)
    requires forall b <- bodies :: Tag(Clause("", b)) != of
    ensures Components(AddAll(q, bodies).clauses, of, engine) == Components(q.clauses, of, engine)
    ensures AddAll(q, bodies).engineScope == q.engineScope
    decreases |bodies|
  {
    hide Tag, Components, AddClause;
    if bodies != [] {
      AddedElsewhere(q, bodies[0], of, engine);
      AddedAllKeep(AddClause(q, bodies[0]), bodies[1..], of, engine);
    }
  }

  /** The conditions a query says in a section. */
  function Said(c: Compiler, env: Env, I: Reading, of: Component, q: Query): seq<Item> {
    Items(c, env, I, Components(q.clauses, of, c.Engine()))
  }

  lemma {:induction false} SaidAdded(c: Compiler, env: Env, I: Reading, of: Component, q: Query, body: Body)
    ensures var cl := Clause(q.engineScope, body);
      Said(c, env, I, of, AddClause(q, body)) ==
        Said(c, env, I, of, q) + if Tag(cl) == of && Sees(c, q.engineScope) then Items(c, env, I, [cl]) else []
  {
    var cl := Clause(q.engineScope, body);
    AddedSection(q, body, of, c.Engine());
    hide Components, Items, Tag;
    assert Visible(cl, c.Engine()) == Sees(c, q.engineScope);
    ItemsConcat(c, env, I, Components(q.clauses, of, c.Engine()), [cl]);
    assert Components(q.clauses, of, c.Engine()) + [] == Components(q.clauses, of, c.Engine());
  }

  lemma {:induction false} OneItem(c: Compiler, env: Env, I: Reading, cl: Clause)
    requires cl.body.Condition?
    ensures Items(c, env, I, [cl]) == if Omitted(c, cl) then [] else [Item(cl.body.or, Says(c, env, I, cl))]
  {
    hide Omitted, Says;
    assert [cl][1..] == [];
  }

  /** A test on its own. */
  lemma {:induction false} TestItem(c: Compiler, env: Env, I: Reading, cl: Clause)
    requires cl.body.Condition? && !cl.body.shape.Nested?
    ensures Items(c, env, I, [cl]) ==
      if EmptyRaw(c, cl.body.shape) then [] else [Item(cl.body.or, Test(c, env, I, cl.body.not, cl.body.shape))]
  {
    OneItem(c, env, I, cl);
    hide ShapeOut, EmitShape, ExpressionTokens, RawOut;
  }

  /** A group on its own. */
  lemma {:induction false} GroupItem(c: Compiler, env: Env, I: Reading, scope: string, section: Component, or: bool, not: bool, group: Query)
    requires forall cl <- Components(group.clauses, Where, c.Engine()) :: cl.body.Condition?
    ensures var cl := Clause(scope, Condition(section, or, not, Nested(group))); var inner := Said(c, env, I, Where, group);
      Items(c, env, I, [cl]) == if inner == [] then [] else [Item(or, NotIf(not, AnyOf(Conditions.Runs(inner))))]
  {
    var cl := Clause(scope, Condition(section, or, not, Nested(group)));
    OneItem(c, env, I, cl);
    NoItems(c, env, I, Inside(c, cl));
    hide Items, Conditions.Runs, AnyOf, Components, OmittedAll;
    assert Inside(c, cl) == Components(group.clauses, Where, c.Engine());
  }

  // ----- programs -------------------------------------------------------------------------------------

  predicate Filters(of: Component) { of == Where || of == Having }

  lemma {:induction false} AddSays(c: Compiler, env: Env, I: Reading, of: Component, q: Query, body: Body)
    requires Filters(of) && Legal(Add(body))
    ensures Said(c, env, I, of, AddClause(q, body)) == Said(c, env, I, of, q) + StepItems(c, env, I, of, q.engineScope, Add(body))
  {
    SaidAdded(c, env, I, of, q, body);
    hide AddClause, Said, Items, Test;
    if body.Condition? { TestItem(c, env, I, Clause(q.engineScope, body)); }
  }

  lemma {:induction false} AddWithSays(c: Compiler, env: Env, I: Reading, of: Component, q: Query, body: Body, program: seq<Step>, alias: string)
    requires Filters(of) && Legal(AddWith(body, program, alias))
    ensures Said(c, env, I, of, Apply(q, AddWith(body, program, alias))) ==
      Said(c, env, I, of, q) + StepItems(c, env, I, of, q.engineScope, AddWith(body, program, alias))
  {
    var sub := Renamed(Building.Run(EmptyQuery, program), alias);
    SaidAdded(c, env, I, of, q, Wrapping(body, sub));
    hide AddClause, Said, Items, Test, Building.Run, AllLegal, Renamed;
    if body.Condition? { TestItem(c, env, I, Clause(q.engineScope, Wrapping(body, sub))); }
  }

  lemma {:induction false} AddGroupSays(c: Compiler, env: Env, I: Reading, of: Component, q: Query, section: Component, or: bool, not: bool, program: seq<Step>)
    requires Filters(of) && Legal(AddGroup(section, or, not, program))
    requires Said(c, env, I, Where, Building.Run(EmptyQuery, program)) ==
      Said(c, env, I, Where, EmptyQuery) + ProgramItems(c, env, I, Where, "", program)
    ensures Said(c, env, I, of, Apply(q, AddGroup(section, or, not, program))) ==
      Said(c, env, I, of, q) + StepItems(c, env, I, of, q.engineScope, AddGroup(section, or, not, program))
  {
    var group := Building.Run(EmptyQuery, program);
    assert Said(c, env, I, Where, EmptyQuery) == [];
    assert Said(c, env, I, Where, group) == ProgramItems(c, env, I, Where, "", program);
    GroupConditions(c, program);
    GroupItems(c, env, I, of, q.engineScope, section, or, not, program);
    GroupStep(q, section, or, not, program);
    hide Building.Run, Apply, StepItems, Legal, ProgramItems, Components, Items, Conditions.Runs, AnyOf, AddClause, Said, Tag;
    if exists cl <- group.clauses :: Tag(cl) == Where {
      GroupSays(c, env, I, of, q, section, or, not, group);
    } else {
      EmptySaid(c, env, I, group);
      assert Said(c, env, I, of, q) + [] == Said(c, env, I, of, q);
    }
  }

  lemma {:induction false} GroupStep(q: Query, section: Component, or: bool, not: bool, program: seq<Step>)
    ensures var group := Building.Run(EmptyQuery, program);
      Apply(q, AddGroup(section, or, not, program)) ==
        if exists cl <- group.clauses :: Tag(cl) == Where then AddClause(q, Condition(section, or, not, Nested(group))) else q
  {
    hide Building.Run, AddClause, Tag;
  }

  lemma {:induction false} GroupItems(c: Compiler, env: Env, I: Reading, of: Component, scope: string, section: Component, or: bool, not: bool, program: seq<Step>)
    ensures var inner := ProgramItems(c, env, I, Where, "", program);
      StepItems(c, env, I, of, scope, AddGroup(section, or, not, program)) ==
        if section == of && Sees(c, scope) && inner != [] then [Item(or, NotIf(not, AnyOf(Conditions.Runs(inner))))] else []
  {
    hide Conditions.Runs, AnyOf;
  }

  lemma {:induction false} GroupSays(c: Compiler, env: Env, I: Reading, of: Component, q: Query, section: Component, or: bool, not: bool, group: Query)
    requires forall cl <- Components(group.clauses, Where, c.Engine()) :: cl.body.Condition?
    ensures var inner := Said(c, env, I, Where, group);
      Said(c, env, I, of, AddClause(q, Condition(section, or, not, Nested(group)))) ==
        Said(c, env, I, of, q) +
          if section == of && Sees(c, q.engineScope) && inner != [] then [Item(or, NotIf(not, AnyOf(Conditions.Runs(inner))))] else []
  {
    SaidAdded(c, env, I, of, q, Condition(section, or, not, Nested(group)));
    GroupItem(c, env, I, q.engineScope, section, or, not, group);
    ConditionTag(q.engineScope, section, or, not, Nested(group));
    hide AddClause, Said, Items, Tag, Components, Conditions.Runs, AnyOf;
  }

  lemma {:induction false} ConditionTag(scope: string, section: Component, or: bool, not: bool, shape: Shape)
    ensures Tag(Clause(scope, Condition(section, or, not, shape))) == section
  {
  }

  lemma {:induction false} EmptySaid(c: Compiler, env: Env, I: Reading, group: Query)
    requires forall cl <- group.clauses :: Tag(cl) != Where
    ensures Said(c, env, I, Where, group) == []
  {
    NoComponents(group.clauses, Where, c.Engine());
  }

  lemma {:induction false} GroupConditions(c: Compiler, program: seq<Step>)
    requires AllLegal(program)
    ensures forall cl <- Components(Building.Run(EmptyQuery, program).clauses, Where, c.Engine()) :: cl.body.Condition?
  {
    var group := Building.Run(EmptyQuery, program);
    PR.ProgramsAreBuilt(program);
    SectionConditions(c, group.clauses, Where);
    hide Building.Run, AllLegal;
  }

  /** Columns and joins are no conditions of the query. */
  lemma {:induction false} ElseSays(c: Compiler, env: Env, I: Reading, of: Component, q: Query, step: Step)
    requires Filters(of) && (step.AddFiltered? || step.AddJoin? || step.AddJoinSub?)
    ensures Said(c, env, I, of, Apply(q, step)) == Said(c, env, I, of, q) && StepItems(c, env, I, of, q.engineScope, step) == []
    ensures Apply(q, step).engineScope == q.engineScope
  {
    ApplyProduced(q, step);
    ElseTag(step);
    hide Items, AddClause, Apply, Components, Produced, Tag;
    AddedElsewhere(q, Produced(step).value, of, c.Engine());
  }

  lemma {:induction false} ElseTag(step: Step)
    requires step.AddFiltered? || step.AddJoin? || step.AddJoinSub?
    ensures Produced(step).Some? && !Filters(Tag(Clause("", Produced(step).value)))
  {
    hide Building.Run;
  }

  lemma {:induction false} QueryKeeps(q: Query, body: Body, of: Component, engine: string)
    requires Lasting(of) && (body.FromQuery? || body.Increment?)
    ensures Components(SetOrReplace(q, body).clauses, of, engine) == Components(q.clauses, of, engine)
  {
    hide SetOrReplace, Components;
    PutKeeps(q, body, of, engine);
  }

  lemma {:induction false} SingleTags(of: Component, step: Step)
    requires Lasting(of) && Legal(step)
    ensures step.Put? ==> Tag(Clause("", step.body)) != of
  {
    hide Flat, Tag;
  }

  /** The sections whose clauses are never replaced or dropped. */
  predicate Lasting(of: Component) { of !in Single + {Insert} }

  predicate Others(step: Step) {
    && !step.Add? && !step.AddWith? && !step.AddGroup? && !step.Within?
    && !step.AddFiltered? && !step.AddJoin? && !step.AddJoinSub?
  }

  /** Verbs of the other families leave the conditions alone. */
  lemma {:induction false} OtherSays(c: Compiler, env: Env, I: Reading, of: Component, q: Query, step: Step)
    requires Filters(of) && Legal(step) && Others(step)
    ensures Said(c, env, I, of, Apply(q, step)) == Said(c, env, I, of, q) + StepItems(c, env, I, of, q.engineScope, step)
    ensures Apply(q, step).engineScope == q.engineScope
  {
    OtherItems(c, env, I, of, q.engineScope, step);
    hide Items, Components, Apply, StepItems, Legal, Others;
    OtherKeeps(q, step, of, c.Engine());
    assert Said(c, env, I, of, q) + [] == Said(c, env, I, of, q);
  }

  lemma {:induction false} OtherItems(c: Compiler, env: Env, I: Reading, of: Component, scope: string, step: Step)
    requires Others(step)
    ensures StepItems(c, env, I, of, scope, step) == []
  {
  }

  lemma {:induction false} OtherKeeps(q: Query, step: Step, of: Component, engine: string)
    requires Lasting(of) && Legal(step) && Others(step)
    ensures Components(Apply(q, step).clauses, of, engine) == Components(q.clauses, of, engine)
    ensures Apply(q, step).engineScope == q.engineScope
  {
    SingleTags(of, step);
    hide AddClause, SetOrReplace, DropInScope, AddAll, Building.Run, AllLegal, Flat, Components, Renamed;
    match step
    case Put(body) => PutKeeps(q, body, of, engine);
    case PutFrom(program, alias) => QueryKeeps(q, FromQuery(Renamed(Building.Run(EmptyQuery, program), alias)), of, engine);
    case Increase(column, amount) => QueryKeeps(q.(verb := MethodUpdate), Increment(column, amount), of, engine);
    case Write(verb, section, bodies) => WriteKeeps(q, verb, section, bodies, of, engine);
    case WriteFrom(columns, program) => WriteFromKeeps(q, InsertQuery(columns, Building.Run(EmptyQuery, program)), of, engine);
    case _ =>
  }

  lemma {:induction false} DropKeepsSection(q: Query, dropped: Component, of: Component, engine: string)
    requires of != dropped
    ensures Components(DropInScope(q, dropped).clauses, of, engine) == Components(q.clauses, of, engine)
    ensures DropInScope(q, dropped).engineScope == q.engineScope
  {
    OutsideKeepsSection(q.clauses, dropped, q.engineScope, of, engine);
  }

  lemma {:induction false} WriteFromKeeps(q: Query, body: Body, of: Component, engine: string)
    requires Lasting(of) && body.InsertQuery?
    ensures var r := AddClause(DropInScope(q.(verb := MethodInsert), Insert), body);
      Components(r.clauses, of, engine) == Components(q.clauses, of, engine) && r.engineScope == q.engineScope
  {
    var w := q.(verb := MethodInsert);
    assert of != Insert && Tag(Clause("", body)) == Insert;
    hide Components, DropInScope, AddClause, Lasting, Tag;
    DropKeepsSection(w, Insert, of, engine);
    AddedElsewhere(DropInScope(w, Insert), body, of, engine);
  }

  lemma {:induction false} WriteTags(verb: Method, section: Component, bodies: seq<Body>)
    requires Legal(Write(verb, section, bodies))
    ensures !Lasting(section) && forall b <- bodies :: !Lasting(Tag(Clause("", b)))
  {
    forall b | b in bodies ensures !Lasting(Tag(Clause("", b))) { assert b.InsertRow? || b.UpdateSet?; }
  }

  lemma {:induction false} WriteKeeps(q: Query, verb: Method, section: Component, bodies: seq<Body>, of: Component, engine: string)
    requires Lasting(of) && Legal(Write(verb, section, bodies))
    ensures var r := AddAll(DropInScope(q.(verb := verb), section), bodies);
      Components(r.clauses, of, engine) == Components(q.clauses, of, engine) && r.engineScope == q.engineScope
  {
    var w := q.(verb := verb);
    WriteTags(verb, section, bodies);
    hide Components, DropInScope, Tag, Legal, AddAll;
    DropKeepsSection(w, section, of, engine);
    AddedAllKeep(DropInScope(w, section), bodies, of, engine);
  }

  lemma {:induction false} StepSays(c: Compiler, env: Env, I: Reading, of: Component, q: Query, step: Step)
    requires Filters(of) && Legal(step)
    ensures var r := Apply(q, step);
      && Said(c, env, I, of, r) == Said(c, env, I, of, q) + StepItems(c, env, I, of, q.engineScope, step)
      && r.engineScope == if step.Within? then "" else q.engineScope
    decreases step, 0
  {
    hide Items, Components, Test, Flat, SetOrReplace, DropInScope, AddAll, Wrapping, Renamed, EmptyRaw;
    match step
    case Add(body) => AddSays(c, env, I, of, q, body);
    case AddWith(body, program, alias) => AddWithSays(c, env, I, of, q, body, program, alias);
    case AddGroup(section, or, not, program) =>
      ProgramSays(c, env, I, Where, EmptyQuery, program);
      AddGroupSays(c, env, I, of, q, section, or, not, program);
    case Within(engine, program) =>
      ProgramSays(c, env, I, of, q.(engineScope := engine), program);
    case AddFiltered(_, _, _) => ElseSays(c, env, I, of, q, step);
    case AddJoin(_, _, _) => ElseSays(c, env, I, of, q, step);
    case AddJoinSub(_, _, _) => ElseSays(c, env, I, of, q, step);
    case _ => OtherSays(c, env, I, of, q, step);
  }

  lemma {:induction false} ProgramSays(c: Compiler, env: Env, I: Reading, of: Component, q: Query, program: seq<Step>)
    requires Filters(of) && AllLegal(program)
    ensures Said(c, env, I, of, Building.Run(q, program)) ==
      Said(c, env, I, of, q) + ProgramItems(c, env, I, of, q.engineScope, program)
    decreases program, 1
  {
    hide Apply, Legal, StepItems, Said;
    if program == [] {
      assert Said(c, env, I, of, q) + [] == Said(c, env, I, of, q);
    } else {
      var r := Apply(q, program[0]);
      StepSays(c, env, I, of, q, program[0]);
      ProgramSays(c, env, I, of, r, program[1..]);
      assert (Said(c, env, I, of, q) + StepItems(c, env, I, of, q.engineScope, program[0]))
             + ProgramItems(c, env, I, of, r.engineScope, program[1..])
          == Said(c, env, I, of, q) + (StepItems(c, env, I, of, q.engineScope, program[0])
             + ProgramItems(c, env, I, of, r.engineScope, program[1..]));
    }
  }

  // ----- what is printed for them -------------------------------------------------------------------------

  /** The truth of a printed section of conditions; without one every row passes. */
  function ReadTruth(I: Reading, keyword: string, section: seq<Token>): Option<Truth> {
    if section == [] then Some(True)
    else if section[0] != Sym(keyword) then None
    else
      match ParseCondition(section[1..])
      case None => None
      case Some(Parsed(terms, rest)) => if rest == [] then Some(EvalTerms(I, terms)) else None
  }

  /** A printed section of conditions is true where its clauses say so. */
  lemma {:induction false} SectionReads(c: Compiler, env: Env, I: Reading, cs: seq<Clause>, of: Component, keyword: string)
    requires Lawful(I) && Filters(of) && Built(cs)
    ensures var list := Components(cs, of, c.Engine());
      ReadTruth(I, keyword, ConditionSection(keyword, list, EmitClauses(c, env, list)).sql) == Some(Passes(Items(c, env, I, list)))
  {
    var list := Components(cs, of, c.Engine());
    SectionConditions(c, cs, of);
    hide Built, Components, EmitClauses, ConditionSection, ParseCondition, Conditions.Runs, AnyOf, Lawful, OmittedAll, Items;
    NoItems(c, env, I, list);
    SectionMeans(c, env, I, cs, of, keyword);
  }

  /** What the clauses of a program's query say is what the program asks. */
  lemma {:induction false} ProgramAsks(c: Compiler, env: Env, I: Reading, of: Component, program: seq<Step>)
    requires Filters(of) && AllLegal(program)
    ensures Passes(Items(c, env, I, Components(Building.Run(EmptyQuery, program).clauses, of, c.Engine()))) == Asks(c, env, I, of, program)
  {
    hide Building.Run, AllLegal, Components, ProgramItems, Conditions.Runs, AnyOf, Items;
    ProgramSays(c, env, I, of, EmptyQuery, program);
    NothingSaid(c, env, I, of);
    assert [] + ProgramItems(c, env, I, of, "", program) == ProgramItems(c, env, I, of, "", program);
  }

  /** A printed section of a program's query is true where the program asks. */
  lemma {:induction false} ProgramReads(c: Compiler, env: Env, I: Reading, of: Component, keyword: string, program: seq<Step>)
    requires Lawful(I) && Filters(of) && AllLegal(program)
    ensures var list := Components(Building.Run(EmptyQuery, program).clauses, of, c.Engine());
      ReadTruth(I, keyword, ConditionSection(keyword, list, EmitClauses(c, env, list)).sql) == Some(Asks(c, env, I, of, program))
  {
    PR.ProgramsAreBuilt(program);
    hide Building.Run, AllLegal, Built, Components, EmitClauses, ConditionSection, ReadTruth, Lawful, Asks, Passes, Items;
    SectionReads(c, env, I, Building.Run(EmptyQuery, program).clauses, of, keyword);
    ProgramAsks(c, env, I, of, program);
  }

  lemma {:induction false} NothingSaid(c: Compiler, env: Env, I: Reading, of: Component)
    ensures Said(c, env, I, of, EmptyQuery) == []
  {
  }

  /** For every program, with groups nested at any depth: the WHERE and the HAVING read
      from the printed query are true where the verbs of the program ask, whatever the
      single tests mean. */
  lemma {:induction false} VerbsMean(c: Compiler, outer: Env, I: Reading, program: seq<Step>)
    requires Lawful(I) && AllLegal(program)
    requires NamedCombines(Components(Building.Run(EmptyQuery, program).clauses, Combine, c.Engine()))
    ensures var q := Building.Run(EmptyQuery, program); var env := outer + q.variables;
      var s := ReadSections(Unwrapped(EmitQuery(c, outer, q).sql));
      && ReadTruth(I, "WHERE", s.where) == Some(Asks(c, env, I, Where, program))
      && ReadTruth(I, "HAVING", s.having) == Some(Asks(c, env, I, Having, program))
  {
    var q := Building.Run(EmptyQuery, program);
    PR.ProgramsAreBuilt(program);
    ConditionsRead(c, outer, q);
    hide Building.Run, AllLegal, Built, Components, EmitClauses, ConditionSection, ReadTruth, Asks, Lawful, EmitQuery, ReadSections,
      Unwrapped, NamedCombines;
    ProgramReads(c, outer + q.variables, I, Where, "WHERE", program);
    ProgramReads(c, outer + q.variables, I, Having, "HAVING", program);
  }

  /** The conditions that a printed query shows. */
  lemma {:induction false} ConditionsRead(c: Compiler, outer: Env, q: Query)
    requires Built(q.clauses) && NamedJoins(q.clauses) && NamedCombines(Components(q.clauses, Combine, c.Engine()))
    ensures var s := ReadSections(Unwrapped(EmitQuery(c, outer, q).sql)); var env := outer + q.variables;
      var wheres, havings := Components(q.clauses, Where, c.Engine()), Components(q.clauses, Having, c.Engine());
      && s.where == ConditionSection("WHERE", wheres, EmitClauses(c, env, wheres)).sql
      && s.having == ConditionSection("HAVING", havings, EmitClauses(c, env, havings)).sql
  {
    SelectReads(c, outer, q);
    ReadSame(c, q, Where);
    ReadSame(c, q, Having);
    ChosenIs(c, q.clauses, Where);
    ChosenIs(c, q.clauses, Having);
    hide EmitQuery, ReadSections, Unwrapped, Components, Chosen, EmitClauses, Built, NamedCombines, TableSection, HeadSection,
      ConditionSection, Emit.Listed, LimitSection, Dialects.Joined, Read, LimitOf, OffsetOf;
  }
}
