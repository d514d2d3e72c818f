/** Every query a builder program makes satisfies the invariants that the compiler's
    theorems assume, so they hold of whole runs. */
module Programs {
  import opened Ast
  import opened Placeholders
  import opened Dialects
  import opened Building
  import opened Statements
  import C = Ctes
  import Sub = Substitution
  import V = Validation
  import SS = StatementSoundness
  import SA = StatementAlignment

  /** What holds of a clause of any built query. */
  predicate GoodClause(cl: Clause) {
    BuiltClause(cl) && Sub.CteFormedClause(cl) && (cl.body.Join? ==> cl.body.kind in JoinKinds)
    && (cl.body.RawColumn? ==> cl.body.raw.expression.Written?)
  }

  ghost predicate Good(cs: seq<Clause>) { forall cl <- cs :: GoodClause(cl) }

  /** An update verb always leaves an update clause behind. */
  predicate HasUpdate(q: Query) { q.verb == MethodUpdate ==> exists cl <- q.clauses :: Tag(cl) == Update }

  lemma {:induction false} GoodAdded(q: Query, body: Body)
    requires Good(q.clauses) && GoodClause(Clause(q.engineScope, body))
    ensures Good(AddClause(q, body).clauses)
    ensures HasUpdate(q) ==> HasUpdate(AddClause(q, body))
  {
    hide GoodClause;
  }

  lemma {:induction false} GoodPut(q: Query, body: Body)
    requires Good(q.clauses) && GoodClause(Clause(q.engineScope, body))
    ensures Good(SetOrReplace(q, body).clauses)
    ensures HasUpdate(q) || Tag(Clause("", body)) == Update ==> HasUpdate(SetOrReplace(q, body))
  {
    hide GoodClause;
    var cl := Clause(q.engineScope, body);
    assert Tag(cl) == Tag(Clause("", body));
    var i := SlotOf(q.clauses, Tag(cl), q.engineScope);
    var r := SetOrReplace(q, body).clauses;
    assert i < |r| && r[i] == cl;
    forall x | x in r ensures GoodClause(x) {
      if x != cl { assert x in q.clauses; }
    }
    if exists x <- q.clauses :: Tag(x) == Update {
      var j :| 0 <= j < |q.clauses| && Tag(q.clauses[j]) == Update;
      assert r[j] in r && Tag(r[j]) == Update;
    }
  }

  lemma {:induction false} GoodDropped(q: Query, of: Component)
    requires Good(q.clauses)
    ensures Good(DropInScope(q, of).clauses)
    ensures HasUpdate(q) && of != Update ==> HasUpdate(DropInScope(q, of))
  {
    OutsideKeeps(q.clauses, of, q.engineScope);
    hide GoodClause, Outside;
    if of != Update && exists x <- q.clauses :: Tag(x) == Update {
      var x :| x in q.clauses && Tag(x) == Update;
      assert x in DropInScope(q, of).clauses;
    }
  }

  lemma {:induction false} GoodAddedAll(q: Query, bodies: seq<Body>)
    requires Good(q.clauses) && forall b <- bodies :: b.InsertRow? || b.UpdateSet?
    ensures Good(AddAll(q, bodies).clauses) && AddAll(q, bodies).verb == q.verb
    ensures HasUpdate(q) ==> HasUpdate(AddAll(q, bodies))
    ensures bodies != [] && bodies[|bodies| - 1].UpdateSet? ==> HasUpdate(AddAll(q, bodies))
    decreases |bodies|
  {
    if bodies != [] {
      assert bodies[0] in bodies;
      assert GoodClause(Clause(q.engineScope, bodies[0]));
      GoodAdded(q, bodies[0]);
      GoodAddedAll(AddClause(q, bodies[0]), bodies[1..]);
      hide GoodClause;
      if |bodies| == 1 && bodies[0].UpdateSet? {
        var r := AddClause(q, bodies[0]).clauses;
        assert r[|r| - 1] in r && Tag(r[|r| - 1]) == Update;
      }
    }
  }

  lemma {:induction false} GoodScope(cs: seq<Clause>)
    requires Good(cs)
    ensures Built(cs) && Sub.CteFormed(cs)
  {
    forall i | 0 <= i < |cs| ensures BuiltClause(cs[i]) { assert cs[i] in cs; }
    GoodFormed(cs);
  }

  lemma {:induction false} GoodFormed(cs: seq<Clause>)
    requires Good(cs)
    ensures Sub.CteFormed(cs)
  {
    if cs != [] {
      assert cs[0] in cs && GoodClause(cs[0]);
      GoodFormed(cs[1..]);
    }
  }

  // ----- the clauses verbs add ------------------------------------------------------------------

  lemma {:induction false} FlatIsGood(body: Body, engine: string)
    requires Flat(body)
    ensures GoodClause(Clause(engine, body))
  {
  }

  lemma {:induction false} AroundIsGood(body: Body, sub: Query, engine: string)
    requires body.QueryColumn? || body.CombineQuery? || body.QueryCte?
      || (body.Condition? && (body.section == Where || body.section == Having) && ShapeQuery(body.shape).Some?
          && (body.shape.SubQuery? ==> !body.not))
    requires Built(sub.clauses) && Sub.CteFormed(sub.clauses)
    ensures GoodClause(Clause(engine, Wrapping(body, sub)))
  {
    hide Built, Sub.CteFormed;
  }

  lemma {:induction false} GroupIsGood(section: Component, or: bool, not: bool, group: Query, engine: string)
    requires (section == Where || section == Having) && Built(group.clauses) && Sub.CteFormed(group.clauses)
    ensures GoodClause(Clause(engine, Condition(section, or, not, Nested(group))))
  {
    hide Built, Sub.CteFormed;
  }

  lemma {:induction false} FilterIsGood(aggregate: string, column: string, filter: Option<Query>, engine: string)
    requires filter.Some? ==> Built(filter.value.clauses) && Sub.CteFormed(filter.value.clauses)
    ensures GoodClause(Clause(engine, AggregateColumn(aggregate, column, filter)))
  {
    hide Built, Sub.CteFormed;
  }

  lemma {:induction false} JoinScopeIsGood(target: Body, conditions: seq<Clause>)
    requires GoodClause(Clause("", target)) && Good(conditions)
    ensures var cs := [Clause("", target)] + conditions; Good(cs) && Built(cs) && Sub.CteFormed(cs)
  {
    var cs := [Clause("", target)] + conditions;
    hide GoodClause;
    assert Good(cs);
    GoodScope(cs);
  }

  lemma {:induction false} JoinIsGood(kind: string, target: Body, conditions: seq<Clause>, engine: string)
    requires kind in JoinKinds && GoodClause(Clause("", target)) && Tag(Clause("", target)) == From && Good(conditions)
    ensures GoodClause(Clause(engine, Join(kind, [Clause("", target)] + conditions)))
  {
    hide Built, Sub.CteFormed;
    JoinScopeIsGood(target, conditions);
    var cs := [Clause("", target)] + conditions;
    assert cs[0] in cs && Tag(cs[0]) == From && cs[0].engine == "";
  }

  lemma {:induction false} FromQueryIsGood(sub: Query, engine: string)
    requires Built(sub.clauses) && Sub.CteFormed(sub.clauses)
    ensures GoodClause(Clause(engine, FromQuery(sub)))
    ensures forall columns :: GoodClause(Clause(engine, InsertQuery(columns, sub)))
  {
    hide Built, Sub.CteFormed;
  }

  // ----- whole programs ----------------------------------------------------------------------------

  lemma {:induction false} StepIsGood(q: Query, step: Step)
    requires Good(q.clauses) && HasUpdate(q) && Legal(step)
    ensures Good(Apply(q, step).clauses) && HasUpdate(Apply(q, step))
    decreases step, 1
  {
    hide Good, GoodClause, HasUpdate, AddClause, SetOrReplace, DropInScope, AddAll, Flat, Wrapping, Built;
    match step
    case Put(body) => FlatIsGood(body, q.engineScope); GoodPut(q, body);
    case PutFrom(program, alias) =>
      SubIsGood(program);
      FromQueryIsGood(Renamed(Run(EmptyQuery, program), alias), q.engineScope);
      GoodPut(q, FromQuery(Renamed(Run(EmptyQuery, program), alias)));
    case Write(verb, section, bodies) => WriteIsGood(q, verb, section, bodies);
    case WriteFrom(columns, program) =>
      SubIsGood(program);
      FromQueryIsGood(Run(EmptyQuery, program), q.engineScope);
      InsertFromIsGood(q, columns, Run(EmptyQuery, program));
    case Increase(column, amount) => IncreaseIsGood(q, column, amount);
    case Within(engine, program) =>
      SameClauses(q, q.(engineScope := engine));
      RunIsGood(q.(engineScope := engine), program);
      var r := Run(q.(engineScope := engine), program);
      SameClauses(r, r.(engineScope := ""));
    case Erase => EraseKeeps(q);
    case Define(name, value) => SameClauses(q, q.(variables := q.variables[name := value]));
    case Name(alias) => SameClauses(q, q.(alias := alias));
    case Deduplicate => SameClauses(q, q.(distinct := true));
    case Remark(text) => SameClauses(q, q.(comment := text));
    case _ => AddIsGood(q, step);
  }

  lemma {:induction false} EraseKeeps(q: Query)
    requires Good(q.clauses)
    ensures Good(Apply(q, Erase).clauses) && HasUpdate(Apply(q, Erase))
  {
    hide Good;
  }

  lemma {:induction false} SameClauses(a: Query, b: Query)
    requires a.clauses == b.clauses && a.verb == b.verb
    ensures HasUpdate(a) ==> HasUpdate(b)
  {
  }

  lemma {:induction false} AddIsGood(q: Query, step: Step)
    requires Adds(step)
    requires Good(q.clauses) && HasUpdate(q) && Legal(step)
    ensures Good(Apply(q, step).clauses) && HasUpdate(Apply(q, step))
    decreases step, 0
  {
    hide Good, GoodClause, HasUpdate, AddClause, Flat, Wrapping, Built, Run;
    match step
    case Add(body) => FlatIsGood(body, q.engineScope); GoodAdded(q, body);
    case AddWith(body, program, alias) =>
      var sub := Renamed(Run(EmptyQuery, program), alias);
      SubIsGood(program);
      AroundIsGood(body, sub, q.engineScope);
      GoodAdded(q, Wrapping(body, sub));
    case AddGroup(section, or, not, program) =>
      SubIsGood(program);
      GroupIsGood(section, or, not, Run(EmptyQuery, program), q.engineScope);
      GoodAdded(q, Condition(section, or, not, Nested(Run(EmptyQuery, program))));
    case AddFiltered(aggregate, column, program) =>
      SubIsGood(program);
      var filter := if program == [] then None else Some(Run(EmptyQuery, program));
      FilterIsGood(aggregate, column, filter, q.engineScope);
      GoodAdded(q, AggregateColumn(aggregate, column, filter));
    case AddJoin(kind, target, conditions) =>
      SubIsGood(conditions);
      FlatIsGood(target, "");
      JoinIsGood(kind, target, Run(EmptyQuery, conditions).clauses, q.engineScope);
      GoodAdded(q, Join(kind, [Clause("", target)] + Run(EmptyQuery, conditions).clauses));
    case AddJoinSub(kind, program, conditions) =>
      SubIsGood(program);
      SubIsGood(conditions);
      FromQueryIsGood(Run(EmptyQuery, program), "");
      JoinIsGood(kind, FromQuery(Run(EmptyQuery, program)), Run(EmptyQuery, conditions).clauses, q.engineScope);
      GoodAdded(q, Join(kind, [Clause("", FromQuery(Run(EmptyQuery, program)))] + Run(EmptyQuery, conditions).clauses));
  }

  lemma {:induction false} SubIsGood(program: seq<Step>)
    requires AllLegal(program)
    ensures var sub := Run(EmptyQuery, program); Good(sub.clauses) && Built(sub.clauses) && Sub.CteFormed(sub.clauses)
    decreases program, 2
  {
    RunIsGood(EmptyQuery, program);
    GoodScope(Run(EmptyQuery, program).clauses);
  }

  lemma {:induction false} DropKeepsVerb(q: Query, section: Component)
    ensures DropInScope(q, section).verb == q.verb
  {
  }

  lemma {:induction false} WriteIsGood(q: Query, verb: Method, section: Component, bodies: seq<Body>)
    requires Good(q.clauses) && HasUpdate(q) && Legal(Write(verb, section, bodies))
    ensures var r := Apply(q, Write(verb, section, bodies)); Good(r.clauses) && HasUpdate(r)
  {
    var w := q.(verb := verb);
    GoodDropped(w, section);
    hide Good, DropInScope;
    DropKeepsVerb(w, section);
    if verb == MethodInsert { assert HasUpdate(DropInScope(w, section)); }
    GoodAddedAll(DropInScope(w, section), bodies);
  }

  lemma {:induction false} InsertFromIsGood(q: Query, columns: seq<string>, sub: Query)
    requires Good(q.clauses) && GoodClause(Clause(q.engineScope, InsertQuery(columns, sub)))
    ensures var r := AddClause(DropInScope(q.(verb := MethodInsert), Insert), InsertQuery(columns, sub));
      Good(r.clauses) && HasUpdate(r)
  {
    GoodDropped(q.(verb := MethodInsert), Insert);
    ScopeOfDrop(q.(verb := MethodInsert), Insert);
    hide Good, GoodClause;
    GoodAdded(DropInScope(q.(verb := MethodInsert), Insert), InsertQuery(columns, sub));
  }

  lemma {:induction false} IncreaseIsGood(q: Query, column: string, amount: int)
    requires Good(q.clauses)
    ensures var r := SetOrReplace(q.(verb := MethodUpdate), Increment(column, amount)); Good(r.clauses) && HasUpdate(r)
  {
    assert GoodClause(Clause(q.engineScope, Increment(column, amount)));
    hide Good, GoodClause, HasUpdate, SetOrReplace;
    GoodPut(q.(verb := MethodUpdate), Increment(column, amount));
  }

  lemma {:induction false} RunIsGood(q: Query, program: seq<Step>)
    requires Good(q.clauses) && HasUpdate(q) && AllLegal(program)
    ensures Good(Run(q, program).clauses) && HasUpdate(Run(q, program))
    decreases program, 1
  {
    hide Good, HasUpdate, Apply, Legal;
    if program != [] {
      StepIsGood(q, program[0]);
      RunIsGood(Apply(q, program[0]), program[1..]);
    }
  }

  /** Whatever the program, the finished query is built as the compiler expects. */
  lemma {:induction false} ProgramsAreBuilt(program: seq<Step>)
    requires AllLegal(program)
    ensures var q := Run(EmptyQuery, program);
      Built(q.clauses) && SS.VerbKept(q) && Sub.CteFormed(q.clauses) && NamedJoins(q.clauses) && WrittenColumns(q.clauses)
  {
    RunIsGood(EmptyQuery, program);
    var q := Run(EmptyQuery, program);
    GoodScope(q.clauses);
    if q.verb == MethodUpdate {
      var cl :| cl in q.clauses && Tag(cl) == Update;
      InComponents(q.clauses, Update, "", cl);
    }
  }

  /** So is a clone taken in the callback of a For block, whatever is built on. */
  lemma {:induction false} ClonesAreBuilt(before: seq<Step>, engine: string, inside: seq<Step>)
    requires AllLegal(before) && AllLegal(inside)
    ensures var q := CloneWithin(before, engine, inside);
      Built(q.clauses) && Sub.CteFormed(q.clauses) && NamedJoins(q.clauses) && WrittenColumns(q.clauses)
  {
    assert Good(EmptyQuery.clauses) && HasUpdate(EmptyQuery);
    hide Good, HasUpdate, Run;
    RunIsGood(EmptyQuery, before);
    var start := Run(EmptyQuery, before);
    SameClauses(start, start.(engineScope := engine));
    RunIsGood(start.(engineScope := engine), inside);
    GoodParts(CloneWithin(before, engine, inside).clauses);
  }

  lemma {:induction false} GoodParts(cs: seq<Clause>)
    requires Good(cs)
    ensures Built(cs) && Sub.CteFormed(cs) && NamedJoins(cs) && WrittenColumns(cs)
  {
    GoodScope(cs);
  }

  /** Soundness over whole runs: build by any program, compile without a reported
      problem, and nothing is missing from the output. */
  lemma {:induction false} RunsAreSound(c: Compiler, program: seq<Step>)
    requires AllLegal(program) && V.Accepts(c, Run(EmptyQuery, program))
    ensures Clean(Emitted(c, Run(EmptyQuery, program)).sql)
  {
    ProgramsAreBuilt(program);
    SS.ValidationSound(c, Run(EmptyQuery, program));
  }
}
