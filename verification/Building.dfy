/** What the builder verbs do to a query, on its abstract value.  A program is a
    sequence of verb calls; the callbacks of groups, joins, subqueries and engine
    scopes are programs inside it.  Module Builder runs programs on the heap. */
module Building {
  import opened Ast
  import opened Placeholders
  import opened Dialects
  import Sub = Substitution

  datatype Step =
    | Add(body: Body)                                       // appends a clause without embedded query
    | AddWith(body: Body, program: seq<Step>, alias: string) // appends a clause around a query built elsewhere
    | AddGroup(section: Component, or: bool, not: bool, program: seq<Step>)
    | AddFiltered(aggregate: string, column: string, program: seq<Step>)
    | AddJoin(kind: string, target: Body, conditions: seq<Step>)
    | AddJoinSub(kind: string, program: seq<Step>, conditions: seq<Step>) // joins a query built elsewhere
    | Put(body: Body)                                       // sets or replaces a single clause
    | PutFrom(program: seq<Step>, alias: string)            // FROM a query built elsewhere
    | Write(verb: Method, section: Component, bodies: seq<Body>)
    | WriteFrom(columns: seq<string>, program: seq<Step>)
    | Increase(column: string, amount: int)
    | Erase
    | Within(engine: string, program: seq<Step>)
    | Define(name: string, value: Value)
    | Name(alias: string)
    | Deduplicate
    | Remark(text: string)

  // ----- the three ways to put a clause --------------------------------------------------------

  function AddClause(q: Query, body: Body): (r: Query)
    ensures r.engineScope == q.engineScope
  {
    q.(clauses := q.clauses + [Clause(q.engineScope, body)])
  }

  /** The position of the first clause of a section and engine scope. */
  function SlotOf(cs: seq<Clause>, of: Component, engine: string): (i: nat)
    ensures i <= |cs|
    ensures i < |cs| ==> Tag(cs[i]) == of && cs[i].engine == engine
    ensures forall j :: 0 <= j < i ==> !(Tag(cs[j]) == of && cs[j].engine == engine)
  {
    if cs == [] then 0
    else if Tag(cs[0]) == of && cs[0].engine == engine then 0
    else 1 + SlotOf(cs[1..], of, engine)
  }

  function SetOrReplace(q: Query, body: Body): (r: Query)
    ensures r.engineScope == q.engineScope
  {
    var cl := Clause(q.engineScope, body);
    var i := SlotOf(q.clauses, Tag(cl), q.engineScope);
    q.(clauses := if i < |q.clauses| then q.clauses[i := cl] else q.clauses + [cl])
  }

  function Outside(cs: seq<Clause>, of: Component, engine: string): seq<Clause> {
    if cs == [] then []
    else (if Tag(cs[0]) == of && cs[0].engine == engine then [] else [cs[0]]) + Outside(cs[1..], of, engine)
  }

  /** Drops the section's clauses of the current engine scope only. */
  function DropInScope(q: Query, of: Component): Query {
    q.(clauses := Outside(q.clauses, of, q.engineScope))
  }

  function AddAll(q: Query, bodies: seq<Body>): Query
    decreases |bodies|
  {
    if bodies == [] then q else AddAll(AddClause(q, bodies[0]), bodies[1..])
  }

  /** The form of a clause around an embedded query. */
  function Wrapping(body: Body, sub: Query): Body {
    match body
    case QueryColumn(_) => QueryColumn(sub)
    case CombineQuery(operation, all, _) => CombineQuery(operation, all, sub)
    case QueryCte(alias, _) => QueryCte(alias, sub)
    case Condition(section, or, not, shape) =>
      Condition(section, or, not,
                match shape
                case InQuery(column, _) => InQuery(column, sub)
                case SubQuery(_, op, value) => SubQuery(sub, op, value)
                case Exists(_) => Exists(sub)
                case _ => shape)
    case _ => body
  }

  function Renamed(sub: Query, alias: string): Query { if alias == "" then sub else sub.(alias := alias) }

  // ----- verbs and programs ------------------------------------------------------------------------

  function Apply(q: Query, step: Step): Query
    decreases step, 0
  {
    match step
    case Add(body) => AddClause(q, body)
    case AddWith(body, program, alias) => AddClause(q, Wrapping(body, Renamed(Run(EmptyQuery, program), alias)))
    case AddGroup(section, or, not, program) =>
      var group := Run(EmptyQuery, program);
      if exists cl <- group.clauses :: Tag(cl) == Where then AddClause(q, Condition(section, or, not, Nested(group))) else q
    case AddFiltered(aggregate, column, program) =>
      AddClause(q, AggregateColumn(aggregate, column, if program == [] then None else Some(Run(EmptyQuery, program))))
    case AddJoin(kind, target, conditions) =>
      AddClause(q, Join(kind, [Clause("", target)] + Run(EmptyQuery, conditions).clauses))
    case AddJoinSub(kind, program, conditions) =>
      AddClause(q, Join(kind, [Clause("", FromQuery(Run(EmptyQuery, program)))] + Run(EmptyQuery, conditions).clauses))
    case Put(body) => SetOrReplace(q, body)
    case PutFrom(program, alias) => SetOrReplace(q, FromQuery(Renamed(Run(EmptyQuery, program), alias)))
    case Write(verb, section, bodies) => AddAll(DropInScope(q.(verb := verb), section), bodies)
    case WriteFrom(columns, program) =>
      AddClause(DropInScope(q.(verb := MethodInsert), Insert), InsertQuery(columns, Run(EmptyQuery, program)))
    case Increase(column, amount) => SetOrReplace(q.(verb := MethodUpdate), Increment(column, amount))
    case Erase => q.(verb := MethodDelete)
    case Within(engine, program) => Run(q.(engineScope := engine), program).(engineScope := "")
    case Define(name, value) => q.(variables := q.variables[name := value])
    case Name(alias) => q.(alias := alias)
    case Deduplicate => q.(distinct := true)
    case Remark(text) => q.(comment := text)
  }

  function Run(q: Query, program: seq<Step>): Query
    decreases program, 1
  {
    if program == [] then q else Run(Apply(q, program[0]), program[1..])
  }

  /** A clone taken in the callback of a For block: it keeps the block's scope, which
      only the original loses afterwards. */
  function CloneWithin(before: seq<Step>, engine: string, inside: seq<Step>): Query {
    Run(Run(EmptyQuery, before).(engineScope := engine), inside)
  }

  /** The verbs that append a clause. */
  predicate Adds(step: Step) {
    step.Add? || step.AddWith? || step.AddGroup? || step.AddFiltered? || step.AddJoin? || step.AddJoinSub?
  }

  /** The clause a verb of the adding family makes, none for a group without
      conditions. */
  function Produced(step: Step): Option<Body>
    requires Adds(step)
  {
    match step
    case Add(body) => Some(body)
    case AddWith(body, program, alias) => Some(Wrapping(body, Renamed(Run(EmptyQuery, program), alias)))
    case AddGroup(section, or, not, program) =>
      var group := Run(EmptyQuery, program);
      if exists cl <- group.clauses :: Tag(cl) == Where then Some(Condition(section, or, not, Nested(group))) else None
    case AddFiltered(aggregate, column, program) =>
      Some(AggregateColumn(aggregate, column, if program == [] then None else Some(Run(EmptyQuery, program))))
    case AddJoin(kind, target, conditions) =>
      Some(Join(kind, [Clause("", target)] + Run(EmptyQuery, conditions).clauses))
    case AddJoinSub(kind, program, conditions) =>
      Some(Join(kind, [Clause("", FromQuery(Run(EmptyQuery, program)))] + Run(EmptyQuery, conditions).clauses))
  }

  lemma {:induction false} ApplyProduced(q: Query, step: Step)
    requires Adds(step)
    ensures Apply(q, step) == match Produced(step) case Some(body) => AddClause(q, body) case None => q
  {
  }

  /** The conditions of a join scope; they are never stamped with an engine. */
  function JoinConditions(conditions: seq<Step>): seq<Clause>
    requires forall s <- conditions :: IsCondition(s)
  {
    if conditions == [] then []
    else
      assert IsCondition(conditions[0]);
      (match Produced(conditions[0]) case Some(body) => [Clause("", body)] case None => []) + JoinConditions(conditions[1..])
  }

  lemma {:induction false} JoinConditionsAre(q: Query, conditions: seq<Step>)
    requires q.engineScope == "" && forall s <- conditions :: IsCondition(s)
    ensures Run(q, conditions).clauses == q.clauses + JoinConditions(conditions)
    decreases conditions
  {
    if conditions == [] {
      assert q.clauses + [] == q.clauses;
    } else {
      assert IsCondition(conditions[0]);
      ApplyProduced(q, conditions[0]);
      RunNext(q, conditions);
      hide Produced, Apply, Run, IsCondition;
      JoinConditionsAre(Apply(q, conditions[0]), conditions[1..]);
      var head := match Produced(conditions[0]) case Some(body) => [Clause("", body)] case None => [];
      assert Apply(q, conditions[0]).clauses == q.clauses + head;
      assert (q.clauses + head) + JoinConditions(conditions[1..]) == q.clauses + (head + JoinConditions(conditions[1..]));
    }
  }

  lemma {:induction false} RunNext(q: Query, program: seq<Step>)
    requires program != []
    ensures Run(q, program) == Run(Apply(q, program[0]), program[1..])
  {
    hide Apply;
  }

  // ----- programs of verbs that exist -----------------------------------------------------------------

  /** The sections that hold one clause for each engine scope. */
  const Single: set<Component> := {From, Limit, Offset, Aggregate, Conflict, Update}

  predicate Flat(body: Body) {
    && SubQueryOf(Clause("", body)).None? && GroupOf(Clause("", body)).None? && JoinOf(Clause("", body)).None?
    && (RawOf(Clause("", body)).Some? ==> RawOf(Clause("", body)).value.expression.Written?)
    && (match body
        case Column(section, _) => section == Select || section == Group
        case RawColumn(section, _) => section == Select || section == Group
        case Condition(section, _, not, shape) =>
          (section == Where || section == Having) && (shape.RawCondition? ==> !not)
        case _ => true)
  }

  /** The verbs that queries and joins share. */
  predicate IsCondition(step: Step) {
    (step.Add? && step.body.Condition?) || (step.AddWith? && step.body.Condition?) || step.AddGroup?
  }

  /** The calls the verb families offer. */
  predicate Legal(step: Step)
    decreases step, 0
  {
    match step
    case Add(body) => Flat(body) && Tag(Clause("", body)) !in Single + {Insert}
    case AddWith(body, program, _) =>
      && (body.QueryColumn? || body.CombineQuery? || body.QueryCte?
          || (body.Condition? && (body.section == Where || body.section == Having) && ShapeQuery(body.shape).Some?
              && (body.shape.SubQuery? ==> !body.not)))
      && AllLegal(program)
    case AddGroup(section, _, _, program) => (section == Where || section == Having) && AllLegal(program)
    case AddFiltered(_, _, program) => AllLegal(program)
    case AddJoin(kind, target, conditions) =>
      && kind in JoinKinds
      && Flat(target) && Tag(Clause("", target)) == From && AllLegal(conditions) && forall s <- conditions :: IsCondition(s)
    case AddJoinSub(kind, program, conditions) =>
      kind in JoinKinds && AllLegal(program) && AllLegal(conditions) && forall s <- conditions :: IsCondition(s)
    case Put(body) => Flat(body) && Tag(Clause("", body)) in Single && !body.UpdateSet? && !body.Increment?
    case PutFrom(program, _) => AllLegal(program)
    case Write(verb, section, bodies) =>
      || (verb == MethodInsert && section == Insert && forall b <- bodies :: b.InsertRow?)
      || (verb == MethodUpdate && section == Update && |bodies| == 1 && bodies[0].UpdateSet?)
    case WriteFrom(_, program) => AllLegal(program)
    case Within(_, program) => AllLegal(program)
    case _ => true
  }

  lemma {:induction false} LegalInside(step: Step)
    requires step.Within? && Legal(step)
    ensures AllLegal(step.program)
  {
  }

  predicate AllLegal(program: seq<Step>)
    decreases program, 1
  {
    program == [] || (Legal(program[0]) && AllLegal(program[1..]))
  }

  lemma {:induction false} LegalAt(program: seq<Step>, i: nat)
    requires AllLegal(program) && i < |program|
    ensures Legal(program[i]) && AllLegal(program[i..])
  {
    hide Legal;
    if i > 0 {
      LegalAt(program[1..], i - 1);
      assert program[1..][i - 1..] == program[i..];
    } else {
      assert program[0..] == program;
    }
  }

  /** Two single clauses of different sections, then a clone in a For block. */
  lemma {:induction false} TwoPuts(a: Body, b: Body, engine: string)
    requires Legal(Put(a)) && Legal(Put(b)) && Tag(Clause("", a)) != Tag(Clause("", b))
    ensures AllLegal([Put(a), Put(b)]) && AllLegal([])
    ensures CloneWithin([Put(a), Put(b)], engine, []) ==
      EmptyQuery.(clauses := [Clause("", a), Clause("", b)], engineScope := engine)
  {
    FirstPut(a);
    SecondPut(a, b);
    hide Apply, Legal;
    assert [Put(a), Put(b)][1..] == [Put(b)] && [Put(b)][1..] == [];
    assert AllLegal([]) && AllLegal([Put(b)]) && AllLegal([Put(a), Put(b)]);
    RunNext(EmptyQuery, [Put(a), Put(b)]);
    RunNext(Apply(EmptyQuery, Put(a)), [Put(b)]);
    var q := Run(EmptyQuery, [Put(a), Put(b)]);
    assert q == Apply(Apply(EmptyQuery, Put(a)), Put(b));
  }

  lemma {:induction false} FirstPut(a: Body)
    ensures Apply(EmptyQuery, Put(a)) == EmptyQuery.(clauses := [Clause("", a)])
  {
    assert SlotOf([], Tag(Clause("", a)), "") == 0;
  }

  lemma {:induction false} SecondPut(a: Body, b: Body)
    requires Tag(Clause("", a)) != Tag(Clause("", b))
    ensures Apply(EmptyQuery.(clauses := [Clause("", a)]), Put(b)) == EmptyQuery.(clauses := [Clause("", a), Clause("", b)])
  {
    assert [Clause("", a)][1..] == [] && SlotOf([Clause("", a)], Tag(Clause("", b)), "") == 1;
  }

  // ----- one clause for each slot -------------------------------------------------------------------------

  /** Each single section holds at most one clause for each engine scope. */
  predicate OnePerSlot(cs: seq<Clause>) {
    forall i, j :: 0 <= i < j < |cs| && Tag(cs[i]) in Single ==> !(Tag(cs[i]) == Tag(cs[j]) && cs[i].engine == cs[j].engine)
  }

  /** The last value written to each slot. */
  type Slots = map<(Component, string), Body>

  /** The verbs on slots: a put overwrites, everything else leaves them. */
  function WriteSlots(m: Slots, scope: string, step: Step): Slots
    decreases step, 0
  {
    match step
    case Put(body) => m[(Tag(Clause("", body)), scope) := body]
    case PutFrom(program, alias) => m[(From, scope) := FromQuery(Renamed(Run(EmptyQuery, program), alias))]
    case Increase(column, amount) => m[(Update, scope) := Increment(column, amount)]
    case Write(verb, section, bodies) => if section == Update && |bodies| == 1 then m[(Update, scope) := bodies[0]] else m
    case Within(engine, program) => RunSlots(m, engine, program)
    case _ => m
  }

  /** A nested scope ends the one around it: afterwards writes are unscoped. */
  function RunSlots(m: Slots, scope: string, program: seq<Step>): Slots
    decreases program, 1
  {
    if program == [] then m
    else RunSlots(WriteSlots(m, scope, program[0]), if program[0].Within? then "" else scope, program[1..])
  }

  /** The slot read for a dialect: its own, else the unscoped one. */
  function Lookup(m: Slots, of: Component, engine: string): Option<Body> {
    if (of, engine) in m then Some(m[(of, engine)]) else if (of, "") in m then Some(m[(of, "")]) else None
  }

  /** A clause list holds exactly the slots of a map. */
  ghost predicate Stored(cs: seq<Clause>, m: Slots) {
    && (forall i :: 0 <= i < |cs| && Tag(cs[i]) in Single ==> (Tag(cs[i]), cs[i].engine) in m)
    && (forall i :: 0 <= i < |cs| && Tag(cs[i]) in Single ==> m[(Tag(cs[i]), cs[i].engine)] == cs[i].body)
    && (forall k <- m :: k.0 in Single && SlotOf(cs, k.0, k.1) < |cs|)
  }

  lemma {:induction false} SlotFound(cs: seq<Clause>, of: Component, engine: string, i: nat)
    requires i < |cs| && Tag(cs[i]) == of && cs[i].engine == engine
    ensures SlotOf(cs, of, engine) <= i
  {
  }

  lemma {:induction false} AddKeeps(q: Query, body: Body, m: Slots)
    requires OnePerSlot(q.clauses) && Stored(q.clauses, m) && Tag(Clause("", body)) !in Single
    ensures var r := AddClause(q, body); OnePerSlot(r.clauses) && Stored(r.clauses, m)
  {
    var cl := Clause(q.engineScope, body);
    var r := q.clauses + [cl];
    assert Tag(cl) == Tag(Clause("", body));
    forall k | k in m ensures SlotOf(r, k.0, k.1) < |r| {
      var i := SlotOf(q.clauses, k.0, k.1);
      assert r[i] == q.clauses[i];
      SlotFound(r, k.0, k.1, i);
    }
  }

  lemma {:induction false} PutWrites(q: Query, body: Body, m: Slots)
    requires OnePerSlot(q.clauses) && Stored(q.clauses, m) && Tag(Clause("", body)) in Single
    ensures var r := SetOrReplace(q, body);
      OnePerSlot(r.clauses) && Stored(r.clauses, m[(Tag(Clause("", body)), q.engineScope) := body])
  {
    var cl := Clause(q.engineScope, body);
    assert Tag(cl) == Tag(Clause("", body));
    var i := SlotOf(q.clauses, Tag(cl), q.engineScope);
    if i < |q.clauses| {
      hide SlotOf;
      ReplaceWrites(q.clauses, i, cl, m);
    } else {
      assert (Tag(cl), q.engineScope) !in m;
      AddFills(q, body, m);
    }
  }

  lemma {:induction false} ReplaceWrites(cs: seq<Clause>, i: nat, cl: Clause, m: Slots)
    requires OnePerSlot(cs) && Stored(cs, m) && Tag(cl) in Single
    requires i < |cs| && Tag(cs[i]) == Tag(cl) && cs[i].engine == cl.engine
    ensures OnePerSlot(cs[i := cl]) && Stored(cs[i := cl], m[(Tag(cl), cl.engine) := cl.body])
  {
    hide SlotOf, Tag;
    var r, m' := cs[i := cl], m[(Tag(cl), cl.engine) := cl.body];
    assert forall j :: 0 <= j < |cs| && j != i ==> r[j] == cs[j];
    forall j | 0 <= j < |cs| && j != i ensures !(Tag(cs[j]) == Tag(cl) && cs[j].engine == cl.engine) {
      hide Stored;
      if j < i { assert !(Tag(cs[j]) in Single && Tag(cs[j]) == Tag(cs[i]) && cs[j].engine == cs[i].engine); }
    }
    forall k | k in m' ensures k.0 in Single && SlotOf(r, k.0, k.1) < |r| {
      if k == (Tag(cl), cl.engine) {
        SlotFound(r, k.0, k.1, i);
      } else {
        var j := SlotOf(cs, k.0, k.1);
        SlotFound(r, k.0, k.1, j);
      }
    }
  }

  /** What dropping a section in one scope leaves. */
  lemma {:induction false} OutsideKeeps(cs: seq<Clause>, of: Component, engine: string)
    ensures var r := Outside(cs, of, engine);
      && (forall cl :: cl in r <==> cl in cs && !(Tag(cl) == of && cl.engine == engine))
      && (OnePerSlot(cs) ==> OnePerSlot(r))
  {
    hide Tag, OnePerSlot;
    if cs != [] {
      OutsideKeeps(cs[1..], of, engine);
      assert cs == [cs[0]] + cs[1..];
      if OnePerSlot(cs) {
        FirstInSlot(cs);
        OneMore(cs[0], Outside(cs[1..], of, engine));
      }
    }
  }

  lemma {:induction false} FirstInSlot(cs: seq<Clause>)
    requires cs != [] && OnePerSlot(cs)
    ensures OnePerSlot(cs[1..])
    ensures Tag(cs[0]) in Single ==> forall cl <- cs[1..] :: !(Tag(cs[0]) == Tag(cl) && cs[0].engine == cl.engine)
  {
    hide Tag;
    var rest := cs[1..];
    assert forall i :: 0 <= i < |rest| ==> rest[i] == cs[i + 1];
  }

  lemma {:induction false} OneMore(cl: Clause, rest: seq<Clause>)
    requires OnePerSlot(rest)
    requires Tag(cl) in Single ==> forall x <- rest :: !(Tag(cl) == Tag(x) && cl.engine == x.engine)
    ensures OnePerSlot([cl] + rest) && OnePerSlot([] + rest)
  {
    hide Tag;
    assert [] + rest == rest;
    var all := [cl] + rest;
    assert forall i :: 0 < i < |all| ==> all[i] == rest[i - 1];
  }

  lemma {:induction false} DropClears(q: Query, of: Component, m: Slots)
    requires OnePerSlot(q.clauses) && Stored(q.clauses, m)
    ensures var r := DropInScope(q, of); OnePerSlot(r.clauses) && Stored(r.clauses, m - {(of, q.engineScope)})
    ensures of !in Single ==> m - {(of, q.engineScope)} == m
  {
    var cs, kept := q.clauses, Outside(q.clauses, of, q.engineScope);
    OutsideKeeps(cs, of, q.engineScope);
    hide Outside, OnePerSlot;
    DropValues(cs, kept, of, q.engineScope, m);
    DropKeys(cs, kept, of, q.engineScope, m);
    hide SlotOf;
    assert of !in Single ==> (of, q.engineScope) !in m;
  }

  lemma {:induction false} DropValues(cs: seq<Clause>, kept: seq<Clause>, of: Component, engine: string, m: Slots)
    requires Stored(cs, m) && forall cl :: cl in kept <==> cl in cs && !(Tag(cl) == of && cl.engine == engine)
    ensures var m' := m - {(of, engine)};
      forall i :: 0 <= i < |kept| && Tag(kept[i]) in Single ==>
        (Tag(kept[i]), kept[i].engine) in m' && m'[(Tag(kept[i]), kept[i].engine)] == kept[i].body
  {
    hide SlotOf;
    forall i | 0 <= i < |kept| && Tag(kept[i]) in Single
      ensures (Tag(kept[i]), kept[i].engine) in m - {(of, engine)} && m[(Tag(kept[i]), kept[i].engine)] == kept[i].body
    {
      assert kept[i] in kept;
      var j :| 0 <= j < |cs| && cs[j] == kept[i];
    }
  }

  lemma {:induction false} DropKeys(cs: seq<Clause>, kept: seq<Clause>, of: Component, engine: string, m: Slots)
    requires Stored(cs, m) && forall cl :: cl in kept <==> cl in cs && !(Tag(cl) == of && cl.engine == engine)
    ensures forall k <- m - {(of, engine)} :: k.0 in Single && SlotOf(kept, k.0, k.1) < |kept|
  {
    forall k | k in m - {(of, engine)} ensures k.0 in Single && SlotOf(kept, k.0, k.1) < |kept| {
      var cl := cs[SlotOf(cs, k.0, k.1)];
      assert cl in cs && cl in kept;
      var i :| 0 <= i < |kept| && kept[i] == cl;
      SlotFound(kept, k.0, k.1, i);
    }
  }

  lemma {:induction false} TagIsBody(cl: Clause)
    ensures Tag(cl) == Tag(Clause("", cl.body))
  {
  }

  lemma {:induction false} AddFills(q: Query, body: Body, m: Slots)
    requires OnePerSlot(q.clauses) && Stored(q.clauses, m)
    requires Tag(Clause("", body)) in Single && (Tag(Clause("", body)), q.engineScope) !in m
    ensures var r := AddClause(q, body);
      OnePerSlot(r.clauses) && Stored(r.clauses, m[(Tag(Clause("", body)), q.engineScope) := body])
  {
    hide SlotOf, Tag;
    var cl := Clause(q.engineScope, body);
    TagIsBody(cl);
    var r := q.clauses + [cl];
    var m' := m[(Tag(cl), q.engineScope) := body];
    assert forall i :: 0 <= i < |q.clauses| ==> r[i] == q.clauses[i];
    forall i | 0 <= i < |q.clauses| && Tag(q.clauses[i]) in Single
      ensures !(Tag(q.clauses[i]) == Tag(cl) && q.clauses[i].engine == cl.engine)
    {
    }
    forall k | k in m' ensures k.0 in Single && SlotOf(r, k.0, k.1) < |r| {
      SlotFound(r, k.0, k.1, if k == (Tag(cl), q.engineScope) then |q.clauses| else SlotOf(q.clauses, k.0, k.1));
    }
  }

  /** Dropping a slot and adding its new clause at the end is a write, too. */
  lemma {:induction false} DropThenAdd(q: Query, body: Body, m: Slots)
    requires OnePerSlot(q.clauses) && Stored(q.clauses, m) && Tag(Clause("", body)) in Single
    ensures var of := Tag(Clause("", body)); var r := AddClause(DropInScope(q, of), body);
      OnePerSlot(r.clauses) && Stored(r.clauses, m[(of, q.engineScope) := body])
  {
    hide OnePerSlot, Stored, Outside, SlotOf;
    var of := Tag(Clause("", body));
    var k := (of, q.engineScope);
    DropClears(q, of, m);
    AddFills(DropInScope(q, of), body, m - {k});
    assert (m - {k})[k := body] == m[k := body];
  }

  lemma {:induction false} AddAllKeeps(q: Query, bodies: seq<Body>, m: Slots)
    requires OnePerSlot(q.clauses) && Stored(q.clauses, m) && forall b <- bodies :: b.InsertRow?
    ensures var r := AddAll(q, bodies); OnePerSlot(r.clauses) && Stored(r.clauses, m) && r.engineScope == q.engineScope
    decreases |bodies|
  {
    if bodies != [] {
      AddKeeps(q, bodies[0], m);
      AddAllKeeps(AddClause(q, bodies[0]), bodies[1..], m);
    }
  }

  // ----- the main result ---------------------------------------------------------------------------------------

  /** Every verb keeps one clause for each slot and does to the clause list what it
      does to the map of last writes. */
  lemma {:induction false} StepRefines(q: Query, step: Step, m: Slots)
    requires OnePerSlot(q.clauses) && Stored(q.clauses, m) && Legal(step)
    ensures var r := Apply(q, step);
      && OnePerSlot(r.clauses) && Stored(r.clauses, WriteSlots(m, q.engineScope, step))
      && r.engineScope == if step.Within? then "" else q.engineScope
    decreases step, 0
  {
    hide OnePerSlot, Stored, Run, SlotOf, Outside, Flat, SetOrReplace, AddClause, AddAll, DropInScope;
    match step
    case Put(body) => PutWrites(q, body, m);
    case PutFrom(program, alias) => PutWrites(q, FromQuery(Renamed(Run(EmptyQuery, program), alias)), m);
    case Write(verb, section, bodies) => WriteRefines(q, verb, section, bodies, m);
    case WriteFrom(columns, program) =>
      DropClears(q.(verb := MethodInsert), Insert, m);
      ScopeOfDrop(q.(verb := MethodInsert), Insert);
      AddKeeps(DropInScope(q.(verb := MethodInsert), Insert), InsertQuery(columns, Run(EmptyQuery, program)), m);
    case Increase(column, amount) => PutWrites(q.(verb := MethodUpdate), Increment(column, amount), m);
    case Within(engine, program) => RunRefines(q.(engineScope := engine), program, m);
    case Erase =>
    case Define(_, _) =>
    case Name(_) =>
    case Deduplicate =>
    case Remark(_) =>
    case _ => AddRefines(q, step, m);
  }

  lemma {:induction false} ScopeOfDrop(q: Query, of: Component)
    ensures DropInScope(q, of).engineScope == q.engineScope
  {
  }

  lemma {:induction false} AddRefines(q: Query, step: Step, m: Slots)
    requires Adds(step)
    requires OnePerSlot(q.clauses) && Stored(q.clauses, m) && Legal(step)
    ensures var r := Apply(q, step); OnePerSlot(r.clauses) && Stored(r.clauses, m) && r.engineScope == q.engineScope
  {
    hide OnePerSlot, Stored, Run, Flat, AddClause, Wrapping;
    match step
    case Add(body) => AddKeeps(q, body, m);
    case AddWith(body, program, alias) =>
      var sub := Renamed(Run(EmptyQuery, program), alias);
      AroundTag(body, sub);
      AddKeeps(q, Wrapping(body, sub), m);
    case AddGroup(section, or, not, program) => AddKeeps(q, Condition(section, or, not, Nested(Run(EmptyQuery, program))), m);
    case AddFiltered(aggregate, column, program) =>
      AddKeeps(q, AggregateColumn(aggregate, column, if program == [] then None else Some(Run(EmptyQuery, program))), m);
    case AddJoin(kind, target, conditions) =>
      AddKeeps(q, Join(kind, [Clause("", target)] + Run(EmptyQuery, conditions).clauses), m);
    case AddJoinSub(kind, program, conditions) =>
      AddKeeps(q, Join(kind, [Clause("", FromQuery(Run(EmptyQuery, program)))] + Run(EmptyQuery, conditions).clauses), m);
  }

  lemma {:induction false} WriteRefines(q: Query, verb: Method, section: Component, bodies: seq<Body>, m: Slots)
    requires OnePerSlot(q.clauses) && Stored(q.clauses, m) && Legal(Write(verb, section, bodies))
    ensures var r := Apply(q, Write(verb, section, bodies));
      && OnePerSlot(r.clauses) && Stored(r.clauses, WriteSlots(m, q.engineScope, Write(verb, section, bodies)))
      && r.engineScope == q.engineScope
  {
    hide OnePerSlot, Stored, DropInScope, AddClause;
    var w := q.(verb := verb);
    ScopeOfDrop(w, section);
    if section == Update {
      assert bodies[1..] == [];
      DropThenAdd(w, bodies[0], m);
      assert AddAll(DropInScope(w, section), bodies) == AddClause(DropInScope(w, section), bodies[0]);
    } else {
      DropClears(w, section, m);
      AddAllKeeps(DropInScope(w, section), bodies, m);
    }
  }

  lemma {:induction false} AroundTag(body: Body, sub: Query)
    ensures Tag(Clause("", Wrapping(body, sub))) == Tag(Clause("", body))
  {
  }

  lemma {:induction false} RunRefines(q: Query, program: seq<Step>, m: Slots)
    requires OnePerSlot(q.clauses) && Stored(q.clauses, m) && AllLegal(program)
    ensures var r := Run(q, program);
      OnePerSlot(r.clauses) && Stored(r.clauses, RunSlots(m, q.engineScope, program))
    decreases program, 1
  {
    hide OnePerSlot, Stored, Apply, WriteSlots, Legal;
    if program != [] {
      StepRefines(q, program[0], m);
      RunRefines(Apply(q, program[0]), program[1..], WriteSlots(m, q.engineScope, program[0]));
    }
  }

  /** Reading the single clause of a section is reading its slot, with the unscoped
      one as fallback. */
  lemma {:induction false} OneIsLookup(cs: seq<Clause>, m: Slots, of: Component, engine: string)
    requires Stored(cs, m) && of in Single
    ensures One(cs, of, engine).Some? <==> Lookup(m, of, engine).Some?
    ensures One(cs, of, engine).Some? ==> One(cs, of, engine).value.body == Lookup(m, of, engine).value
  {
    var visible := Components(cs, of, engine);
    ScopedIsSlot(cs, m, of, engine, engine);
    ScopedIsSlot(cs, m, of, engine, "");
    hide Components, FirstScoped, Stored;
  }

  lemma {:induction false} ScopedIsSlot(cs: seq<Clause>, m: Slots, of: Component, engine: string, scope: string)
    requires Stored(cs, m) && of in Single && (scope == engine || scope == "")
    ensures var found := FirstScoped(Components(cs, of, engine), scope);
      && (found.Some? <==> (of, scope) in m)
      && (found.Some? ==> found.value.body == m[(of, scope)])
  {
    var found := FirstScoped(Components(cs, of, engine), scope);
    if found.Some? {
      assert found.value in Components(cs, of, engine);
      var i :| 0 <= i < |cs| && cs[i] == found.value;
    }
    if (of, scope) in m {
      var cl := cs[SlotOf(cs, of, scope)];
      InComponents(cs, of, engine, cl);
      FirstScopedFinds(Components(cs, of, engine), scope, cl);
    }
  }

  /** After any sequence of verbs, inside and outside nested engine scopes, every
      slot holds at most one clause, and what the compiler reads of a single section
      is the last write to the dialect's slot or, without one, to the unscoped. */
  lemma {:induction false} LastWriteWins(program: seq<Step>, of: Component, engine: string)
    requires AllLegal(program) && of in Single
    ensures var cs := Run(EmptyQuery, program).clauses;
      && OnePerSlot(cs)
      && (var slot := Lookup(RunSlots(map[], "", program), of, engine);
          match One(cs, of, engine)
          case Some(cl) => slot == Some(cl.body)
          case None => slot == None)
  {
    RunRefines(EmptyQuery, program, map[]);
    OneIsLookup(Run(EmptyQuery, program).clauses, RunSlots(map[], "", program), of, engine);
  }
}
