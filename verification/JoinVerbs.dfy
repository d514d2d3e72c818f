/** The joins that a program's verbs ask for, against those read from its printed
    query. */
module JoinVerbs {
  import opened Ast
  import opened Building
  import opened Conditions
  import opened Dialects
  import opened Emit
  import opened JoinMeaning
  import opened Placeholders
  import opened Sections
  import opened VerbMeaning
  import PR = Programs

  /** The join verbs that a dialect sees, in order. */
  function JoinSteps(c: Compiler, scope: string, program: seq<Step>): seq<Step>
    decreases program, 1
  {
    if program == [] then []
    else
      StepJoins(c, scope, program[0]) + JoinSteps(c, if program[0].Within? then "" else scope, program[1..])
  }

  function StepJoins(c: Compiler, scope: string, step: Step): seq<Step>
    decreases step, 0
  {
    match step
    case Within(engine, program) => JoinSteps(c, engine, program)
    case _ => if (step.AddJoin? || step.AddJoinSub?) && Sees(c, scope) then [step] else []
  }

  /** What a join verb joins. */
  function Target(step: Step): Body
    requires step.AddJoin? || step.AddJoinSub?
  {
    if step.AddJoin? then step.target else FromQuery(Building.Run(EmptyQuery, step.program))
  }

  /** A join clause is the one a verb asked for: its kind, what it joins, and the truth
      of its condition by the verbs of its callback. */
  ghost predicate IsJoinOf(c: Compiler, cl: Clause, step: Step) {
    && (step.AddJoin? || step.AddJoinSub?)
    && cl.body.Join? && cl.body.kind == step.kind
    && One(cl.body.clauses, Ast.From, c.Engine()) == Some(Clause("", Target(step)))
    && forall env, I {:trigger Asks(c, env, I, Where, step.conditions)} ::
         Passes(Items(c, env, I, Components(cl.body.clauses, Where, c.Engine()))) == Asks(c, env, I, Where, step.conditions)
  }

  ghost predicate AreJoinsOf(c: Compiler, joins: seq<Clause>, steps: seq<Step>) {
    |joins| == |steps| && forall i :: 0 <= i < |steps| ==> IsJoinOf(c, joins[i], steps[i])
  }

  lemma {:induction false} JoinsConcat(c: Compiler, a: seq<Clause>, b: seq<Clause>, s: seq<Step>, t: seq<Step>)
    requires AreJoinsOf(c, a, s) && AreJoinsOf(c, b, t)
    ensures AreJoinsOf(c, a + b, s + t)
  {
    hide IsJoinOf;
  }

  // ----- the clause of a join verb -----------------------------------------------------------------

  /** The conditions of a callback, and only they, are conditions. */
  lemma {:induction false} CallbackConditions(q: Query, conditions: seq<Step>)
    requires AllLegal(conditions) && (forall s <- conditions :: IsCondition(s)) && q.engineScope == ""
    requires forall cl <- q.clauses :: cl.body.Condition?
    ensures forall cl <- Building.Run(q, conditions).clauses :: cl.body.Condition?
    decreases conditions
  {
    if conditions != [] {
      assert IsCondition(conditions[0]) && Adds(conditions[0]);
      ApplyProduced(q, conditions[0]);
      ConditionProduced(conditions[0]);
      hide Produced, Building.Run, Apply, IsCondition, Legal;
      RunNext(q, conditions);
      CallbackConditions(Apply(q, conditions[0]), conditions[1..]);
    }
  }

  lemma {:induction false} ConditionProduced(step: Step)
    requires IsCondition(step)
    ensures Produced(step).Some? ==> Produced(step).value.Condition?
  {
    hide Building.Run;
  }

  lemma {:induction false} JoinScope(c: Compiler, step: Step, conditions: seq<Clause>)
    requires (step.AddJoin? || step.AddJoinSub?) && Legal(step) && conditions == Building.Run(EmptyQuery, step.conditions).clauses
    ensures var cs := [Clause("", Target(step))] + conditions;
      && One(cs, Ast.From, c.Engine()) == Some(Clause("", Target(step)))
      && Components(cs, Where, c.Engine()) == Components(conditions, Where, c.Engine())
  {
    var target := Clause("", Target(step));
    var cs := [target] + conditions;
    assert Tag(target) == Ast.From;
    CallbackConditions(EmptyQuery, step.conditions);
    ConditionSections(step.conditions);
    hide Building.Run, Target, Legal;
    ComponentsConcat([target], conditions, Ast.From, c.Engine());
    ComponentsConcat([target], conditions, Where, c.Engine());
    OneComponent(target, Ast.From, c.Engine());
    OneComponent(target, Where, c.Engine());
    NoComponents(conditions, Ast.From, c.Engine());
    hide Components, Tag;
    assert [target] + [] == [target] && [] + Components(conditions, Where, c.Engine()) == Components(conditions, Where, c.Engine());
  }

  lemma {:induction false} ConditionSections(conditions: seq<Step>)
    requires AllLegal(conditions) && forall s <- conditions :: IsCondition(s)
    ensures forall cl <- Building.Run(EmptyQuery, conditions).clauses :: Tag(cl) != Ast.From
  {
    var q := Building.Run(EmptyQuery, conditions);
    CallbackConditions(EmptyQuery, conditions);
    PR.ProgramsAreBuilt(conditions);
    hide Building.Run, AllLegal;
    forall cl | cl in q.clauses ensures Tag(cl) != Ast.From {
      var i :| 0 <= i < |q.clauses| && q.clauses[i] == cl;
      assert BuiltClause(q.clauses[i]);
    }
  }

  lemma {:induction false} JoinClauseIs(c: Compiler, step: Step, engine: string)
    requires (step.AddJoin? || step.AddJoinSub?) && Legal(step)
    ensures Produced(step).Some? && IsJoinOf(c, Clause(engine, Produced(step).value), step)
  {
    var conditions := Building.Run(EmptyQuery, step.conditions).clauses;
    var cl := Clause(engine, Produced(step).value);
    assert cl.body == Join(step.kind, [Clause("", Target(step))] + conditions);
    JoinScope(c, step, conditions);
    assert AllLegal(step.conditions);
    hide Building.Run, Target, Legal, Produced, Components, One, Items, ProgramItems, Passes;
    forall env: Env, I: Reading
      ensures Passes(Items(c, env, I, Components(cl.body.clauses, Where, c.Engine()))) == Asks(c, env, I, Where, step.conditions)
    {
      ProgramAsks(c, env, I, Where, step.conditions);
    }
  }

  // ----- programs ----------------------------------------------------------------------------------------

  lemma {:induction false} StepJoinsAre(c: Compiler, q: Query, step: Step, before: seq<Step>)
    requires Legal(step) && AreJoinsOf(c, Components(q.clauses, Joins, c.Engine()), before)
    ensures var r := Apply(q, step);
      && AreJoinsOf(c, Components(r.clauses, Joins, c.Engine()), before + StepJoins(c, q.engineScope, step))
      && r.engineScope == if step.Within? then "" else q.engineScope
    decreases step, 0
  {
    if step.Within? {
      LegalInside(step);
      WithinIs(c, q, step);
      hide Legal, AreJoinsOf, Apply, Building.Run, StepJoins, JoinSteps, Components;
      ProgramJoinsAre(c, q.(engineScope := step.engine), step.program, before);
    } else if step.AddJoin? || step.AddJoinSub? {
      JoinStepAre(c, q, step, before);
    } else {
      hide Legal, AreJoinsOf, Apply, Components;
      NoJoinStep(c, q, step);
      assert before + [] == before;
    }
  }

  lemma {:induction false} WithinIs(c: Compiler, q: Query, step: Step)
    requires step.Within?
    ensures Apply(q, step) == Building.Run(q.(engineScope := step.engine), step.program).(engineScope := "")
    ensures StepJoins(c, q.engineScope, step) == JoinSteps(c, step.engine, step.program)
  {
    hide Building.Run, JoinSteps;
  }

  lemma {:induction false} JoinStepAre(c: Compiler, q: Query, step: Step, before: seq<Step>)
    requires (step.AddJoin? || step.AddJoinSub?) && Legal(step)
    requires AreJoinsOf(c, Components(q.clauses, Joins, c.Engine()), before)
    ensures var r := Apply(q, step);
      && AreJoinsOf(c, Components(r.clauses, Joins, c.Engine()), before + StepJoins(c, q.engineScope, step))
      && r.engineScope == q.engineScope
  {
    JoinClauseIs(c, step, q.engineScope);
    StepJoinsIs(c, q.engineScope, step);
    JoinAdded(c, q, step);
    hide Apply, Produced, IsJoinOf, Components, Legal, StepJoins, AreJoinsOf;
    var cl := Clause(q.engineScope, Produced(step).value);
    if Sees(c, q.engineScope) {
      OneJoinOf(c, cl, step);
      JoinsConcat(c, Components(q.clauses, Joins, c.Engine()), [cl], before, [step]);
    } else {
      assert before + [] == before;
    }
  }

  lemma {:induction false} JoinAdded(c: Compiler, q: Query, step: Step)
    requires step.AddJoin? || step.AddJoinSub?
    ensures Produced(step).Some?
    ensures var cl := Clause(q.engineScope, Produced(step).value);
      Components(Apply(q, step).clauses, Joins, c.Engine()) ==
        if Sees(c, q.engineScope) then Components(q.clauses, Joins, c.Engine()) + [cl] else Components(q.clauses, Joins, c.Engine())
    ensures Apply(q, step).engineScope == q.engineScope
  {
    ApplyProduced(q, step);
    var cl := Clause(q.engineScope, Produced(step).value);
    AddedSection(q, Produced(step).value, Joins, c.Engine());
    assert Tag(cl) == Joins;
    hide Apply, Produced, Components, AddClause, Tag;
    assert Components(q.clauses, Joins, c.Engine()) + [] == Components(q.clauses, Joins, c.Engine());
  }

  lemma {:induction false} OneJoinOf(c: Compiler, cl: Clause, step: Step)
    requires IsJoinOf(c, cl, step)
    ensures AreJoinsOf(c, [cl], [step])
  {
    hide IsJoinOf;
  }

  lemma {:induction false} StepJoinsIs(c: Compiler, scope: string, step: Step)
    requires step.AddJoin? || step.AddJoinSub?
    ensures StepJoins(c, scope, step) == if Sees(c, scope) then [step] else []
  {
  }

  lemma {:induction false} NoJoinStep(c: Compiler, q: Query, step: Step)
    requires Legal(step) && !step.Within? && !step.AddJoin? && !step.AddJoinSub?
    ensures Components(Apply(q, step).clauses, Joins, c.Engine()) == Components(q.clauses, Joins, c.Engine())
    ensures Apply(q, step).engineScope == q.engineScope
  {
    if Adds(step) {
      ApplyProduced(q, step);
      NoJoinTag(step);
      hide Apply, Produced, Components, Legal, AddClause, Tag;
      if Produced(step).Some? { AddedElsewhere(q, Produced(step).value, Joins, c.Engine()); }
    } else {
      hide Apply, Legal;
      OtherKeeps(q, step, Joins, c.Engine());
    }
  }

  lemma {:induction false} NoJoinTag(step: Step)
    requires Legal(step) && Adds(step) && !step.AddJoin? && !step.AddJoinSub?
    ensures Produced(step).Some? ==> Tag(Clause("", Produced(step).value)) != Joins
  {
    hide Building.Run, AllLegal;
  }

  lemma {:induction false} ProgramJoinsAre(c: Compiler, q: Query, program: seq<Step>, before: seq<Step>)
    requires AllLegal(program) && AreJoinsOf(c, Components(q.clauses, Joins, c.Engine()), before)
    ensures AreJoinsOf(c, Components(Building.Run(q, program).clauses, Joins, c.Engine()), before + JoinSteps(c, q.engineScope, program))
    decreases program, 1
  {
    hide Apply, Legal, AreJoinsOf, StepJoins;
    if program == [] {
      assert before + [] == before;
    } else {
      var first := StepJoins(c, q.engineScope, program[0]);
      StepJoinsAre(c, q, program[0], before);
      ProgramJoinsAre(c, Apply(q, program[0]), program[1..], before + first);
      assert (before + first) + JoinSteps(c, Apply(q, program[0]).engineScope, program[1..])
        == before + (first + JoinSteps(c, Apply(q, program[0]).engineScope, program[1..]));
    }
  }

  // ----- the main result ------------------------------------------------------------------------------------

  /** A join as printed is the one a verb asked for. */
  ghost predicate Answers<R(!new)>(c: Compiler, env: Env, db: Database<R>, read: ReadJoin, step: Step)
    requires step.AddJoin? || step.AddJoinSub?
  {
    && read.kind == step.kind
    && read.target == EmitClause(c, env, Clause("", Target(step))).sql
    && forall t: Tuple<R> :: ReadOn(db, read.on)(t) == Asks(c, env, db.reading(t), Where, step.conditions)
  }

  lemma {:induction false} FaithfulAnswers<R(!new)>(c: Compiler, env: Env, db: Database<R>, read: ReadJoin, cl: Clause, step: Step)
    requires cl.body.Join? && BuiltClause(cl) && Faithful(c, env, db, read, cl) && IsJoinOf(c, cl, step)
    ensures Answers(c, env, db, read, step)
  {
    var conditions := Components(cl.body.clauses, Where, c.Engine());
    assert Built(cl.body.clauses);
    SectionConditions(c, cl.body.clauses, Where);
    hide BuiltClause, Built, Components, Items, ProgramItems, Target, EmitClause, One, Conditions.Runs, AnyOf, OmittedAll, ReadOn;
    forall t: Tuple<R> ensures ReadOn(db, read.on)(t) == Asks(c, env, db.reading(t), Where, step.conditions) {
      NoItems(c, env, db.reading(t), conditions);
      assert ReadOn(db, read.on)(t) == Asked(c, env, db, cl)(t);
    }
  }

  /** For every program: the joins read from the printed query are those of its join
      verbs, in order, with their kinds, their tables and the truth of the conditions
      built in their callbacks. */
  lemma {:induction false} JoinVerbsMean<R(!new)>(c: Compiler, outer: Env, program: seq<Step>, db: Database<R>)
    requires AllLegal(program) && LawfulOn(db)
    requires NamedCombines(Components(Building.Run(EmptyQuery, program).clauses, Combine, c.Engine()))
    ensures var q := Building.Run(EmptyQuery, program);
      var source, steps := ReadSource(EmitQuery(c, outer, q).sql), JoinSteps(c, "", program);
      && (forall step <- steps :: step.AddJoin? || step.AddJoinSub?)
      && source.Some? && |source.value.joins| == |steps|
      && forall i :: 0 <= i < |steps| ==> Answers(c, outer + q.variables, db, source.value.joins[i], steps[i])
  {
    var q := Building.Run(EmptyQuery, program);
    var joins, steps := Components(q.clauses, Joins, c.Engine()), JoinSteps(c, "", program);
    PR.ProgramsAreBuilt(program);
    NamedComponents(c, q.clauses);
    PrintedJoinsMean(c, outer, q, db);
    JoinsAre(c, q.clauses);
    hide Building.Run, AllLegal, Built, BuiltClause, EmitQuery, ReadSource, SourceRows, Wanted, NamedCombines, LawfulOn, Faithful,
      IsJoinOf, Answers, JoinSteps, Chosen, JoinKinds, TableText;
    assert Components(EmptyQuery.clauses, Joins, c.Engine()) == [];
    hide Components;
    ProgramJoinsAre(c, EmptyQuery, program, []);
    assert [] + steps == steps;
    StepsAre(c, joins, steps);
    var found := ReadSource(EmitQuery(c, outer, q).sql).value.joins;
    forall i | 0 <= i < |steps| ensures Answers(c, outer + q.variables, db, found[i], steps[i]) {
      assert BuiltClause(joins[i]) by { assert joins[i] in joins; }
      FaithfulAnswers(c, outer + q.variables, db, found[i], joins[i], steps[i]);
    }
  }

  lemma {:induction false} StepsAre(c: Compiler, joins: seq<Clause>, steps: seq<Step>)
    requires AreJoinsOf(c, joins, steps)
    ensures forall step <- steps :: step.AddJoin? || step.AddJoinSub?
  {
    forall step | step in steps ensures step.AddJoin? || step.AddJoinSub? {
      var i :| 0 <= i < |steps| && steps[i] == step;
      assert IsJoinOf(c, joins[i], steps[i]);
    }
  }

  lemma {:induction false} NamedComponents(c: Compiler, cs: seq<Clause>)
    requires NamedJoins(cs)
    ensures NamedJoins(Components(cs, Joins, c.Engine()))
  {
  }
}
