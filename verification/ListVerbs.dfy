/** What the verbs that list columns, groupings, orderings, combined queries and rows
    ask for, by recursion on the program, against the printed text. */
module ListVerbs {
  import opened Ast
  import opened Building
  import opened Dialects
  import opened Emit
  import opened Placeholders
  import opened Sections
  import opened Statements
  import opened VerbMeaning
  import IM = InsertMeaning
  import PR = Programs
  import SM = SelectMeaning
  import V = Validation
  import X = Executing

  // ----- lists that only grow -------------------------------------------------------------------

  const Lists: set<Component> := {Select, Group, Order, Combine, Cte}

  /** The clause around a query built in a callback. */
  function Enclosing(body: Body, sub: Query): Body {
    match body
    case QueryColumn(_) => QueryColumn(sub)
    case CombineQuery(operation, all, _) => CombineQuery(operation, all, sub)
    case QueryCte(alias, _) => QueryCte(alias, sub)
    case _ => body
  }

  /** What a verb adds to a list that a dialect sees. */
  function StepBodies(c: Compiler, of: Component, scope: string, step: Step): seq<Body>
    decreases step, 0
  {
    match step
    case Add(body) => if Tag(Clause("", body)) == of && Sees(c, scope) then [body] else []
    case AddWith(body, program, alias) =>
      if Tag(Clause("", body)) == of && Sees(c, scope) then [Enclosing(body, Renamed(Building.Run(EmptyQuery, program), alias))] else []
    case AddFiltered(aggregate, column, program) =>
      if of == Select && Sees(c, scope) then
        [AggregateColumn(aggregate, column, if program == [] then None else Some(Building.Run(EmptyQuery, program)))]
      else []
    case Within(engine, program) => ProgramBodies(c, of, engine, program)
    case _ => []
  }

  function ProgramBodies(c: Compiler, of: Component, scope: string, program: seq<Step>): seq<Body>
    decreases program, 1
  {
    if program == [] then []
    else
      StepBodies(c, of, scope, program[0])
      + ProgramBodies(c, of, if program[0].Within? then "" else scope, program[1..])
  }

  function Bodies(cs: seq<Clause>): seq<Body> { if cs == [] then [] else [cs[0].body] + Bodies(cs[1..]) }

  /** The list of a query as a dialect sees it. */
  function ListOf(c: Compiler, of: Component, q: Query): seq<Body> { Bodies(Components(q.clauses, of, c.Engine())) }

  lemma {:induction false} BodiesConcat(a: seq<Clause>, b: seq<Clause>)
    ensures Bodies(a + b) == Bodies(a) + Bodies(b)
  {
    if a == [] {
      assert a + b == b;
    } else {
      assert (a + b)[1..] == a[1..] + b;
      BodiesConcat(a[1..], b);
    }
  }

  lemma {:induction false} OneBody(cl: Clause)
    ensures Bodies([cl]) == [cl.body]
  {
    assert [cl][1..] == [];
  }

  lemma {:induction false} AddedBody(c: Compiler, of: Component, q: Query, body: Body)
    ensures ListOf(c, of, AddClause(q, body)) ==
      ListOf(c, of, q) + if Tag(Clause("", body)) == of && Sees(c, q.engineScope) then [body] else []
    ensures AddClause(q, body).engineScope == q.engineScope
  {
    var cl := Clause(q.engineScope, body);
    AddedSection(q, body, of, c.Engine());
    TagIsBody(cl);
    OneBody(cl);
    hide Tag, Components, AddClause;
    BodiesConcat(Components(q.clauses, of, c.Engine()), if Tag(cl) == of && Visible(cl, c.Engine()) then [cl] else []);
  }

  lemma {:induction false} StepList(c: Compiler, of: Component, q: Query, step: Step)
    requires of in Lists && Legal(step)
    ensures var r := Apply(q, step);
      && ListOf(c, of, r) == ListOf(c, of, q) + StepBodies(c, of, q.engineScope, step)
      && r.engineScope == if step.Within? then "" else q.engineScope
    decreases step, 0
  {
    if step.Within? {
      LegalInside(step);
      ProgramList(c, of, q.(engineScope := step.engine), step.program);
      WithinList(c, of, q, step);
    } else if Adds(step) {
      ApplyProduced(q, step);
      ProducedBodies(c, of, q.engineScope, step);
      hide Apply, Produced, StepBodies, ListOf, Legal, AddClause, Tag;
      if Produced(step).Some? { AddedBody(c, of, q, Produced(step).value); }
      assert ListOf(c, of, q) + [] == ListOf(c, of, q);
    } else {
      hide Legal, Apply, Components;
      OtherKeeps(q, step, of, c.Engine());
      assert ListOf(c, of, q) + [] == ListOf(c, of, q);
    }
  }

  lemma {:induction false} WithinList(c: Compiler, of: Component, q: Query, step: Step)
    requires step.Within?
    ensures Apply(q, step) == Building.Run(q.(engineScope := step.engine), step.program).(engineScope := "")
    ensures StepBodies(c, of, q.engineScope, step) == ProgramBodies(c, of, step.engine, step.program)
    ensures forall r: Query, scope: string :: ListOf(c, of, r.(engineScope := scope)) == ListOf(c, of, r)
  {
    hide Building.Run, ProgramBodies;
  }

  /** What a verb of the adding family makes belongs to one list. */
  lemma {:induction false} ProducedBodies(c: Compiler, of: Component, scope: string, step: Step)
    requires of in Lists && Legal(step) && Adds(step)
    ensures StepBodies(c, of, scope, step) ==
      match Produced(step)
      case None => []
      case Some(body) => if Tag(Clause("", body)) == of && Sees(c, scope) then [body] else []
  {
    hide Building.Run, AllLegal, Renamed, Flat, Sees;
  }

  lemma {:induction false} ProgramList(c: Compiler, of: Component, q: Query, program: seq<Step>)
    requires of in Lists && AllLegal(program)
    ensures ListOf(c, of, Building.Run(q, program)) == ListOf(c, of, q) + ProgramBodies(c, of, q.engineScope, program)
    decreases program, 1
  {
    hide Apply, Legal, StepBodies, ListOf;
    if program == [] {
      assert ListOf(c, of, q) + [] == ListOf(c, of, q);
    } else {
      var first := StepBodies(c, of, q.engineScope, program[0]);
      var r := Apply(q, program[0]);
      StepList(c, of, q, program[0]);
      ProgramList(c, of, r, program[1..]);
      var rest := ProgramBodies(c, of, r.engineScope, program[1..]);
      assert (ListOf(c, of, q) + first) + rest == ListOf(c, of, q) + (first + rest);
    }
  }

  /** For every program and every list: a dialect sees what the verbs added, in their
      order. */
  lemma {:induction false} ListsAreAsked(c: Compiler, of: Component, program: seq<Step>)
    requires of in Lists && AllLegal(program)
    ensures ListOf(c, of, Building.Run(EmptyQuery, program)) == ProgramBodies(c, of, "", program)
  {
    ProgramList(c, of, EmptyQuery, program);
    assert ListOf(c, of, EmptyQuery) == [];
    assert [] + ProgramBodies(c, of, "", program) == ProgramBodies(c, of, "", program);
  }

  // ----- what is printed for them ---------------------------------------------------------------

  function Unscoped(bodies: seq<Body>): (cs: seq<Clause>)
    ensures |cs| == |bodies| && forall i :: 0 <= i < |cs| ==> cs[i] == Clause("", bodies[i])
  {
    seq(|bodies|, i requires 0 <= i < |bodies| => Clause("", bodies[i]))
  }

  lemma {:induction false} UnscopedCons(cs: seq<Clause>)
    requires cs != []
    ensures Unscoped(Bodies(cs)) == [Clause("", cs[0].body)] + Unscoped(Bodies(cs[1..]))
  {
  }

  lemma {:induction false} SameOrders(c: Compiler, cs: seq<Clause>)
    requires SM.Orders(cs)
    ensures SM.Orders(Unscoped(Bodies(cs))) && SM.AllAsked(c, Unscoped(Bodies(cs))) == SM.AllAsked(c, cs)
  {
    if cs != [] {
      SameOrders(c, cs[1..]);
      UnscopedCons(cs);
      var first := Clause("", cs[0].body);
      assert cs[0] in cs;
      assert Tag(first) == Order && BuiltClause(first) && SM.Asked(c, first) == SM.Asked(c, cs[0]);
      hide Tag, BuiltClause, SM.Asked, Unscoped;
      assert ([first] + Unscoped(Bodies(cs[1..])))[1..] == Unscoped(Bodies(cs[1..]));
    }
  }

  lemma {:induction false} SameGroups(c: Compiler, cs: seq<Clause>)
    requires SM.Groups(cs)
    ensures SM.Groups(Unscoped(Bodies(cs))) && SM.GroupedBy(c, Unscoped(Bodies(cs))) == SM.GroupedBy(c, cs)
  {
    if cs != [] {
      SameGroups(c, cs[1..]);
      UnscopedCons(cs);
      var first := Clause("", cs[0].body);
      assert cs[0] in cs;
      hide Unscoped;
      assert ([first] + Unscoped(Bodies(cs[1..])))[1..] == Unscoped(Bodies(cs[1..]));
    }
  }

  lemma {:induction false} SameMembers(c: Compiler, env: Env, cs: seq<Clause>)
    requires forall cl <- cs :: cl.body.CombineQuery?
    ensures forall cl <- Unscoped(Bodies(cs)) :: cl.body.CombineQuery?
    ensures SM.Members(c, env, Unscoped(Bodies(cs))) == SM.Members(c, env, cs)
  {
    hide EmitSelect;
    if cs != [] {
      SameMembers(c, env, cs[1..]);
      UnscopedCons(cs);
      var first := Clause("", cs[0].body);
      assert cs[0] in cs;
      hide Unscoped;
      assert ([first] + Unscoped(Bodies(cs[1..])))[1..] == Unscoped(Bodies(cs[1..]));
    }
  }

  /** For every program: the grouping, the ordering and the combined queries read from
      its printed query are those that its verbs ask for, in their order. */
  lemma {:induction false} ListVerbsMean(c: Compiler, outer: Env, program: seq<Step>)
    requires AllLegal(program)
    requires NamedCombines(Components(Building.Run(EmptyQuery, program).clauses, Combine, c.Engine()))
    ensures var q := Building.Run(EmptyQuery, program);
      var s := ReadSections(Unwrapped(EmitQuery(c, outer, q).sql));
      var groups, orders, members :=
        Unscoped(ProgramBodies(c, Group, "", program)), Unscoped(ProgramBodies(c, Order, "", program)), Unscoped(ProgramBodies(c, Combine, "", program));
      && SM.Groups(groups) && SM.Orders(orders) && (forall cl <- members :: cl.body.CombineQuery?)
      && SM.ReadGrouping(s.group) == Some(SM.GroupedBy(c, groups))
      && (!Recompiled(c, q) ==> SM.ReadOrdering(s.order) == Some(SM.AllAsked(c, orders)))
      && SM.ReadMembers(s.combined) == Some(SM.Members(c, outer + q.variables, members))
  {
    var q := Building.Run(EmptyQuery, program);
    PR.ProgramsAreBuilt(program);
    NamedSection(c, q.clauses);
    hide Building.Run, AllLegal, EmitQuery, ReadSections, Unwrapped, Components, Built, NamedJoins, SM.Groups, SM.Orders, SM.ReadGrouping,
      SM.ReadOrdering, SM.ReadMembers, SM.GroupedBy, SM.AllAsked, SM.Members, ProgramBodies, Unscoped, Bodies, Recompiled, Lists;
    SM.GroupingReads(c, outer, q);
    SM.CombinedReads(c, outer, q);
    SM.OrdersOf(c, q.clauses);
    if !Recompiled(c, q) { SM.OrderingReads(c, outer, q); }
    ListNames();
    ListsAreAsked(c, Group, program);
    ListsAreAsked(c, Order, program);
    ListsAreAsked(c, Combine, program);
    SameGroups(c, Components(q.clauses, Group, c.Engine()));
    SameOrders(c, Components(q.clauses, Order, c.Engine()));
    SameMembers(c, outer + q.variables, Components(q.clauses, Combine, c.Engine()));
  }

  lemma {:induction false} ListNames()
    ensures Group in Lists && Order in Lists && Combine in Lists
  {
  }

  lemma {:induction false} NamedSection(c: Compiler, cs: seq<Clause>)
    requires NamedJoins(cs)
    ensures NamedJoins(Components(cs, Joins, c.Engine()))
  {
  }

  // ----- rows ---------------------------------------------------------------------------------------

  function Elsewhere(rows: seq<Clause>, scope: string): seq<Clause> {
    if rows == [] then [] else (if rows[0].engine == scope then [] else [rows[0]]) + Elsewhere(rows[1..], scope)
  }

  function InScope(scope: string, bodies: seq<Body>): seq<Clause> {
    if bodies == [] then [] else [Clause(scope, bodies[0])] + InScope(scope, bodies[1..])
  }

  /** The last insert verb of an engine scope sets what its dialect inserts. */
  function StepRows(rows: seq<Clause>, scope: string, step: Step): seq<Clause>
    decreases step, 0
  {
    match step
    case Write(verb, section, bodies) => if section == Insert then Elsewhere(rows, scope) + InScope(scope, bodies) else rows
    case WriteFrom(columns, program) => Elsewhere(rows, scope) + [Clause(scope, InsertQuery(columns, Building.Run(EmptyQuery, program)))]
    case Within(engine, program) => ProgramRows(rows, engine, program)
    case _ => rows
  }

  function ProgramRows(rows: seq<Clause>, scope: string, program: seq<Step>): seq<Clause>
    decreases program, 1
  {
    if program == [] then rows
    else ProgramRows(StepRows(rows, scope, program[0]), if program[0].Within? then "" else scope, program[1..])
  }

  function Seen(c: Compiler, rows: seq<Clause>): seq<Clause> {
    if rows == [] then [] else (if Sees(c, rows[0].engine) then [rows[0]] else []) + Seen(c, rows[1..])
  }

  function RowsOf(q: Query): seq<Clause> { Components(q.clauses, Insert, "") }

  lemma {:induction false} SeenRows(c: Compiler, cs: seq<Clause>)
    ensures Components(cs, Insert, c.Engine()) == Seen(c, Components(cs, Insert, ""))
  {
    if cs != [] {
      SeenRows(c, cs[1..]);
      hide Tag;
      assert Visible(cs[0], c.Engine()) == Sees(c, cs[0].engine) && Visible(cs[0], "");
      hide Visible, Sees;
      var rest := Components(cs[1..], Insert, "");
      assert ([cs[0]] + rest)[1..] == rest;
      assert [] + rest == rest && [] + Components(cs[1..], Insert, c.Engine()) == Components(cs[1..], Insert, c.Engine());
    }
  }

  lemma {:induction false} RowsOutside(cs: seq<Clause>, scope: string)
    ensures Components(Outside(cs, Insert, scope), Insert, "") == Elsewhere(Components(cs, Insert, ""), scope)
  {
    if cs != [] {
      RowsOutside(cs[1..], scope);
      hide Tag;
      assert Visible(cs[0], "");
      hide Visible;
      var rest, kept := Components(cs[1..], Insert, ""), Outside(cs[1..], Insert, scope);
      assert ([cs[0]] + rest)[1..] == rest && ([cs[0]] + kept)[1..] == kept && [] + rest == rest && [] + kept == kept;
    }
  }

  lemma {:induction false} RowsAdded(q: Query, bodies: seq<Body>)
    requires forall b <- bodies :: Tag(Clause("", b)) == Insert
    ensures RowsOf(AddAll(q, bodies)) == RowsOf(q) + InScope(q.engineScope, bodies)
    ensures AddAll(q, bodies).engineScope == q.engineScope
    decreases |bodies|
  {
    if bodies == [] {
      assert RowsOf(q) + [] == RowsOf(q);
    } else {
      RowAdded(q, bodies[0]);
      var cl := Clause(q.engineScope, bodies[0]);
      hide Tag, Components, AddClause, RowsOf;
      RowsAdded(AddClause(q, bodies[0]), bodies[1..]);
      assert (RowsOf(q) + [cl]) + InScope(q.engineScope, bodies[1..]) == RowsOf(q) + ([cl] + InScope(q.engineScope, bodies[1..]));
    }
  }

  lemma {:induction false} RowAdded(q: Query, body: Body)
    requires Tag(Clause("", body)) == Insert
    ensures RowsOf(AddClause(q, body)) == RowsOf(q) + [Clause(q.engineScope, body)]
    ensures AddClause(q, body).engineScope == q.engineScope
  {
    var cl := Clause(q.engineScope, body);
    TagIsBody(cl);
    AddedSection(q, body, Insert, "");
    assert Visible(cl, "");
    hide Tag, Components, Visible;
  }

  lemma {:induction false} StepRowsAre(q: Query, step: Step)
    requires Legal(step)
    ensures RowsOf(Apply(q, step)) == StepRows(RowsOf(q), q.engineScope, step)
    ensures Apply(q, step).engineScope == if step.Within? then "" else q.engineScope
    decreases step, 0
  {
    match step
    case Within(engine, program) =>
      LegalInside(step);
      ProgramRowsAre(q.(engineScope := engine), program);
      WithinRows(q, step);
    case Write(verb, section, bodies) => WriteRows(q, verb, section, bodies);
    case WriteFrom(columns, program) => FromRows(q, columns, Building.Run(EmptyQuery, program));
    case _ => NoRows(q, step);
  }

  lemma {:induction false} WithinRows(q: Query, step: Step)
    requires step.Within?
    ensures Apply(q, step) == Building.Run(q.(engineScope := step.engine), step.program).(engineScope := "")
    ensures StepRows(RowsOf(q), q.engineScope, step) == ProgramRows(RowsOf(q), step.engine, step.program)
    ensures forall r: Query, scope: string :: RowsOf(r.(engineScope := scope)) == RowsOf(r)
  {
    hide Building.Run, ProgramRows;
  }

  lemma {:induction false} WriteRows(q: Query, verb: Method, section: Component, bodies: seq<Body>)
    requires Legal(Write(verb, section, bodies))
    ensures var r := Apply(q, Write(verb, section, bodies));
      RowsOf(r) == StepRows(RowsOf(q), q.engineScope, Write(verb, section, bodies)) && r.engineScope == q.engineScope
  {
    var w := q.(verb := verb);
    var bare := DropInScope(w, section);
    if section == Insert {
      forall b | b in bodies ensures Tag(Clause("", b)) == Insert { assert b.InsertRow?; }
      RowsOutside(w.clauses, w.engineScope);
      RowsAdded(bare, bodies);
    } else {
      assert section == Update && bodies == [bodies[0]] && bodies[0].UpdateSet?;
      DropKeepsSection(w, section, Insert, "");
      hide Components, DropInScope, AddClause;
      AddedAllKeep(bare, bodies, Insert, "");
    }
  }

  lemma {:induction false} FromRows(q: Query, columns: seq<string>, sub: Query)
    ensures var r := AddClause(DropInScope(q.(verb := MethodInsert), Insert), InsertQuery(columns, sub));
      RowsOf(r) == Elsewhere(RowsOf(q), q.engineScope) + [Clause(q.engineScope, InsertQuery(columns, sub))]
      && r.engineScope == q.engineScope
  {
    var w := q.(verb := MethodInsert);
    RowsOutside(w.clauses, w.engineScope);
    var cl := Clause(q.engineScope, InsertQuery(columns, sub));
    assert Tag(cl) == Insert && Visible(cl, "");
    AddedSection(DropInScope(w, Insert), InsertQuery(columns, sub), Insert, "");
  }

  lemma {:induction false} NoRows(q: Query, step: Step)
    requires Legal(step) && !step.Within? && !step.Write? && !step.WriteFrom?
    ensures RowsOf(Apply(q, step)) == RowsOf(q) && Apply(q, step).engineScope == q.engineScope
  {
    if Adds(step) {
      ApplyProduced(q, step);
      ProducesNoRow(step);
      hide Apply, Produced, Legal, AddClause, Tag, Components;
      if Produced(step).Some? { AddedElsewhere(q, Produced(step).value, Insert, ""); }
    } else {
      hide AddClause, SetOrReplace, AllLegal, Components, Building.Run, Renamed;
      match step
      case Put(body) => PutKeeps(q, body, Insert, "");
      case PutFrom(program, alias) => PutKeeps(q, FromQuery(Renamed(Building.Run(EmptyQuery, program), alias)), Insert, "");
      case Increase(column, amount) => PutKeeps(q.(verb := MethodUpdate), Increment(column, amount), Insert, "");
      case _ =>
    }
  }

  lemma {:induction false} ProducesNoRow(step: Step)
    requires Legal(step) && Adds(step)
    ensures Produced(step).Some? ==> Tag(Clause("", Produced(step).value)) != Insert
  {
    hide Building.Run, AllLegal, Renamed, Flat;
  }

  lemma {:induction false} ProgramRowsAre(q: Query, program: seq<Step>)
    requires AllLegal(program)
    ensures RowsOf(Building.Run(q, program)) == ProgramRows(RowsOf(q), q.engineScope, program)
    decreases program, 1
  {
    hide Apply, Legal, StepRows, RowsOf;
    if program != [] {
      StepRowsAre(q, program[0]);
      ProgramRowsAre(Apply(q, program[0]), program[1..]);
    }
  }

  /** For every program: a dialect inserts what the last insert verb of its own scope and
      the last unscoped one ask for, in the order of these verbs. */
  lemma {:induction false} RowsAreAsked(c: Compiler, program: seq<Step>)
    requires AllLegal(program)
    ensures Components(Building.Run(EmptyQuery, program).clauses, Insert, c.Engine()) == Seen(c, ProgramRows([], "", program))
  {
    ProgramRowsAre(EmptyQuery, program);
    assert RowsOf(EmptyQuery) == [];
    SeenRows(c, Building.Run(EmptyQuery, program).clauses);
  }

  function LastVerb(verb: Method, program: seq<Step>): Method
    decreases program
  {
    if program == [] then verb
    else
      LastVerb(match program[0]
               case Write(v, _, _) => v
               case WriteFrom(_, _) => MethodInsert
               case Increase(_, _) => MethodUpdate
               case Erase => MethodDelete
               case Within(_, inside) => LastVerb(verb, inside)
               case _ => verb,
               program[1..])
  }

  lemma {:induction false} VerbIs(q: Query, program: seq<Step>)
    ensures Building.Run(q, program).verb == LastVerb(q.verb, program)
    decreases program
  {
    if program != [] {
      if program[0].Within? { VerbIs(q.(engineScope := program[0].engine), program[0].program); }
      StepVerb(q, program[0]);
      hide Apply;
      VerbIs(Apply(q, program[0]), program[1..]);
    }
  }

  lemma {:induction false} StepVerb(q: Query, step: Step)
    ensures Apply(q, step).verb ==
      match step
      case Write(v, _, _) => v
      case WriteFrom(_, _) => MethodInsert
      case Increase(_, _) => MethodUpdate
      case Erase => MethodDelete
      case Within(engine, inside) => Building.Run(q.(engineScope := engine), inside).verb
      case _ => q.verb
  {
    hide Building.Run, Outside, SlotOf;
    if step.Write? { AddedVerb(DropInScope(q.(verb := step.verb), step.section), step.bodies); }
  }

  lemma {:induction false} AddedVerb(q: Query, bodies: seq<Body>)
    ensures AddAll(q, bodies).verb == q.verb && AddAll(q, bodies).variables == q.variables
    decreases |bodies|
  {
    if bodies != [] { AddedVerb(AddClause(q, bodies[0]), bodies[1..]); }
  }

  /** The variables a program leaves: of each name, the last definition. */
  function Definitions(m: Env, program: seq<Step>): Env
    decreases program
  {
    if program == [] then m
    else
      Definitions(match program[0]
                  case Define(name, value) => m[name := value]
                  case Within(_, inside) => Definitions(m, inside)
                  case _ => m,
                  program[1..])
  }

  lemma {:induction false} VariablesAre(q: Query, program: seq<Step>)
    ensures Building.Run(q, program).variables == Definitions(q.variables, program)
    decreases program
  {
    if program != [] {
      if program[0].Within? { VariablesAre(q.(engineScope := program[0].engine), program[0].program); }
      StepVariables(q, program[0]);
      hide Apply;
      VariablesAre(Apply(q, program[0]), program[1..]);
    }
  }

  lemma {:induction false} StepVariables(q: Query, step: Step)
    ensures Apply(q, step).variables ==
      match step
      case Define(name, value) => q.variables[name := value]
      case Within(engine, inside) => Building.Run(q.(engineScope := engine), inside).variables
      case _ => q.variables
  {
    hide Building.Run, Outside, SlotOf;
    if step.Write? { AddedVerb(DropInScope(q.(verb := step.verb), step.section), step.bodies); }
  }

  /** For every accepted program whose last write verb inserts rows: the records read
      from the printed statement, executed with its arguments, are the rows that the
      verbs ask for if and only if every row has a column list of its own or all have
      the same. */
  lemma {:induction false} RowVerbsMean(c: Compiler, program: seq<Step>)
    requires AllLegal(program) && LastVerb(MethodSelect, program) == MethodInsert
    requires var q := Building.Run(EmptyQuery, program); V.Accepts(c, q) && Aligned(Emitted(c, q))
    requires var rows := Seen(c, ProgramRows([], "", program)); rows != [] ==> rows[0].body.InsertRow?
    ensures var q := Building.Run(EmptyQuery, program); var rows := Seen(c, ProgramRows([], "", program));
      && q.verb == MethodInsert && rows != [] && IM.AllRows(q.variables, rows) && rows[0].body.InsertRow?
      && (IM.ReadInsert(c, X.Executed(c, q))
            == Some(IM.Rows(WriteTable(c, q.clauses).sql, IM.Asked(q.variables, rows), IM.Tail(c, q.clauses)))
          <==> IM.OwnLists(c, rows) || IM.SameLists(rows[0].body.columns, rows))
  {
    var q := Building.Run(EmptyQuery, program);
    PR.ProgramsAreBuilt(program);
    VerbIs(EmptyQuery, program);
    RowsAreAsked(c, program);
    hide Building.Run, AllLegal, ProgramRows, Seen, Components, V.Accepts, Aligned, Emitted, IM.AllRows, IM.ReadInsert, IM.Asked, IM.OwnLists,
      IM.SameLists, IM.Tail, IM.Printed, WriteTable, LastVerb, Built, X.Executed;
    IM.RowsMean(c, q);
  }
}
