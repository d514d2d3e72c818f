/** Soundness of validation for whole statements: hoisted CTE bodies, rewritten
    aggregates and the write verbs. */
module StatementSoundness {
  import opened Ast
  import opened Dialects
  import opened Emit
  import opened Placeholders
  import opened Alignment
  import opened Statements
  import opened StatementAlignment
  import opened Validation
  import opened Soundness
  import C = Ctes

  // ----- hoisted CTEs -------------------------------------------------------------------

  /** A CTE clause is in order whatever is defined around it. */
  lemma {:induction false} CteIsRoot(c: Compiler, cl: Clause, env: Env)
    requires Tag(cl) == Cte && BuiltClause(cl) && ClauseOk(c, cl, env)
    ensures ClauseOk(c, cl, map[])
  {
  }

  predicate CtesReady(c: Compiler, ctes: seq<Clause>) {
    forall cl <- ctes :: ClauseOk(c, cl, map[])
  }

  /** Every CTE of an accepted scope, at any depth, is in order as a root. */
  lemma {:induction false} AllReady(c: Compiler, cs: seq<Clause>, group: bool, env: Env)
    requires Built(cs) && ScopeOk(c, cs, group, env)
    ensures CtesReady(c, C.All(c.Engine(), cs))
    decreases ClausesSize(cs), 3
  {
    hide ClauseOk;
    BuiltSubset(cs, Components(cs, Cte, c.Engine()));
    LevelReady(c, Components(cs, Cte, c.Engine()), env);
    RestReady(c, cs, env);
  }

  lemma {:induction false} LevelReady(c: Compiler, ctes: seq<Clause>, env: Env)
    requires Built(ctes) && forall cl <- ctes :: Tag(cl) == Cte && ClauseOk(c, cl, env)
    ensures CtesReady(c, C.AllLevel(c.Engine(), ctes))
    decreases ClausesSize(ctes), 2
  {
    if ctes != [] {
      var cl := ctes[0];
      BuiltSubset(ctes, ctes[1..]);
      LevelReady(c, ctes[1..], env);
      CteIsRoot(c, cl, env);
      EmbeddedScopes(c, cl, env);
      hide ClauseOk, ScopeOk;
      if C.CteBody(cl).Some? {
        var q := cl.body.query;
        assert SubQueryOf(cl) == Some(q) && BuiltClause(cl);
        AllReady(c, q.clauses, false, q.variables);
      }
    }
  }

  lemma {:induction false} RestReady(c: Compiler, cs: seq<Clause>, env: Env)
    requires Built(cs) && forall cl <- cs :: ClauseOk(c, cl, env)
    ensures CtesReady(c, C.AllRest(c.Engine(), cs))
    decreases ClausesSize(cs), 2
  {
    if cs != [] {
      BuiltSubset(cs, cs[1..]);
      RestReady(c, cs[1..], env);
      assert ClauseOk(c, cs[0], env);
      EmbeddedScopes(c, cs[0], env);
      hide ClauseOk, ScopeOk;
      if C.Searched(cs[0], c.Engine()) {
        var cl := cs[0];
        assert BuiltClause(cl);
        if SubQueryOf(cl).Some? {
          AllReady(c, SubQueryOf(cl).value.clauses, false, SubEnv(cl, env, SubQueryOf(cl).value));
        } else if JoinOf(cl).Some? {
          AllReady(c, JoinOf(cl).value, true, env);
        } else {
          AllReady(c, GroupOf(cl).value.clauses, true, env);
        }
      }
    }
  }

  lemma {:induction false} WithClean(c: Compiler, out: Out, cs: seq<Clause>, env: Env)
    requires Built(cs) && ScopeOk(c, cs, false, env) && Clean(out.sql)
    ensures Clean(WithCtes(c, out, cs).sql)
  {
    var ctes := C.Find(c.Engine(), {}, cs).ctes;
    BuiltFound(c.Engine(), cs);
    AllReady(c, cs, false, env);
    C.FindWithin(c.Engine(), {}, cs);
    C.AllTagged(c.Engine(), cs);
    hide ClauseOk;
    ClausesClean(c, map[], ctes);
    JoinedClean(EmitClauses(c, map[], ctes), ",");
  }

  // ----- rewritten aggregates --------------------------------------------------------------

  lemma {:induction false} InnerOk(c: Compiler, q: Query, kind: string, columns: seq<string>, env: Env)
    requires ScopeOk(c, q.clauses, false, env)
    ensures ScopeOk(c, InnerQuery(q, kind, columns).clauses, false, env)
  {
    hide ClauseOk, ScopeOk;
    var bare := Without(q.clauses, {Limit, Order, Group});
    RewrittenScope(c, q.clauses, {Limit, Order, Group}, [], env);
    assert bare + [] == bare;
    if q.distinct {
      var added := Stamp(q.engineScope, ColumnBodies(columns));
      forall cl | cl in added ensures Tag(cl) != From && ClauseOk(c, cl, env) { PlainColumnOk(c, cl, env); }
      assert bare == Without(q.clauses, {Limit, Order, Group}) + [];
      RewrittenScope(c, bare, {Aggregate, Select}, added, env);
    } else {
      var added := Stamp(q.engineScope, GuardBodies(columns));
      forall cl | cl in added ensures Tag(cl) != From && ClauseOk(c, cl, env) { GuardOk(c, cl, env); }
      RewrittenScope(c, q.clauses, {Limit, Order, Group}, added, env);
    }
  }

  lemma {:induction false} GuardOk(c: Compiler, cl: Clause, env: Env)
    requires cl.body.Condition? && cl.body.section == Where && cl.body.shape.IsNull?
    ensures ClauseOk(c, cl, env)
  {
  }

  /** The rewritten query is as acceptable as the original one. */
  lemma {:induction false} TransformOk(c: Compiler, q: Query)
    requires ScopeOk(c, q.clauses, false, q.variables)
    ensures var t := TransformAggregate(q, c.Engine()); ScopeOk(c, t.clauses, false, t.variables)
  {
    hide ScopeOk, InnerQuery;
    var cl := One(q.clauses, Aggregate, c.Engine());
    if cl.Some? && cl.value.body.Aggregated? {
      var Aggregated(kind, columns) := cl.value.body;
      if |columns| == 1 && !q.distinct {
        RewrittenScope(c, q.clauses, {Limit, Order, Group}, [], q.variables);
        assert Without(q.clauses, {Limit, Order, Group}) + [] == Without(q.clauses, {Limit, Order, Group});
      } else {
        InnerOk(c, q, kind, columns, q.variables);
        InnerKeeps(q, kind, columns);
        WrapperOk(c, kind, InnerQuery(q, kind, columns));
      }
    }
  }

  lemma {:induction false} InnerKeeps(q: Query, kind: string, columns: seq<string>)
    ensures InnerQuery(q, kind, columns).variables == q.variables
  {
  }

  lemma {:induction false} WrapperOk(c: Compiler, kind: string, inner: Query)
    requires ScopeOk(c, inner.clauses, false, inner.variables)
    ensures ScopeOk(c, [Clause("", Aggregated(kind, ["*"])), Clause("", FromQuery(inner))], false, map[])
  {
    hide ScopeOk, ScopeProblems;
    var a, b := Clause("", Aggregated(kind, ["*"])), Clause("", FromQuery(inner));
    RootEnv(inner.variables);
    ScopeAccepted(c, inner.clauses, false, inner.variables);
    assert ClauseOk(c, b, map[]);
    assert ClauseOk(c, a, map[]);
    UnscopedIsFound([a, b], From, c.Engine(), b);
    PairOk(c, a, b);
  }

  lemma {:induction false} PairOk(c: Compiler, a: Clause, b: Clause)
    requires ClauseOk(c, a, map[]) && ClauseOk(c, b, map[]) && One([a, b], From, c.Engine()).Some?
    ensures ScopeOk(c, [a, b], false, map[])
  {
    hide ClauseOk;
  }

  // ----- write verbs ----------------------------------------------------------------------------

  /** What the builder's write verbs leave behind: an update always lays down an
      update clause, scoped or not. */
  predicate VerbKept(q: Query) {
    q.verb == MethodUpdate ==> Components(q.clauses, Update, "") != []
  }

  lemma {:induction false} TargetClean(c: Compiler, cs: seq<Clause>, env: Env)
    requires Built(cs) && ScopeOk(c, cs, false, env)
    requires match One(cs, From, c.Engine()) case Some(cl) => cl.body.FromTable? || cl.body.FromRaw? case None => true
    ensures Clean(WriteTable(c, cs).sql)
  {
    var cl := One(cs, From, c.Engine()).value;
    var i :| 0 <= i < |cs| && cs[i] == cl;
    assert BuiltClause(cs[i]);
    if cl.body.FromRaw? { RawClean(c, cl.body.raw); }
  }

  lemma {:induction false} WhereClean(c: Compiler, env: Env, cs: seq<Clause>)
    requires Built(cs) && ScopeOk(c, cs, false, env)
    ensures Clean(WhereSection(c, env, cs).sql)
  {
    SectionClean(c, env, cs, false, Where);
    ConnectClean(Chosen(c, cs, Where), EmitClauses(c, env, Chosen(c, cs, Where)), false);
  }

  lemma {:induction false} RowValuesClean(env: Env, values: seq<Value>)
    requires ValuesOk(values, env)
    ensures Clean(RowValues(env, values).sql)
  {
    ParameterizeClean(env, values);
  }

  lemma {:induction false} SetPartsClean(env: Env, columns: seq<string>, values: seq<Value>)
    requires ValuesOk(values, env) && |values| == |columns|
    ensures AllClean(SetParts(env, columns, values))
    decreases columns
  {
    if columns != [] {
      assert values[0] in values;
      ParameterClean(env, values[0]);
      SetPartsClean(env, columns[1..], values[1..]);
    }
  }

  lemma {:induction false} UpdateOk(c: Compiler, cs: seq<Clause>, env: Env)
    requires ScopeOk(c, cs, false, env)
    requires UpdateProblems(c, cs) == [] && Components(cs, Update, "") != []
    ensures var cl := One(cs, Update, c.Engine());
      && cl.Some? && ClauseOk(c, cl.value, env)
      && (cl.value.body.Increment?
          || (cl.value.body.UpdateSet? && ValuesProblems(cl.value.body.columns, cl.value.body.values) == []))
  {
    hide ClauseOk, ValuesProblems, Components, One;
  }

  lemma {:induction false} UpdateClean(c: Compiler, env: Env, cs: seq<Clause>)
    requires Built(cs) && ScopeOk(c, cs, false, env) && Clean(WriteTable(c, cs).sql)
    requires UpdateProblems(c, cs) == [] && Components(cs, Update, "") != []
    ensures Clean(EmitUpdate(c, env, cs).sql)
  {
    hide ScopeOk, WhereSection, WriteTable, ClauseOk, SetSection, Clean, UpdateProblems, ValuesProblems, Components, One, Built;
    UpdateOk(c, cs, env);
    var cl := One(cs, Update, c.Engine()).value;
    WhereClean(c, env, cs);
    SetClean(c, env, cl);
    var a := Cat(SetSection(env, cl.body), WhereSection(c, env, cs));
    CleanCat(SetSection(env, cl.body), WhereSection(c, env, cs));
    WordsClean([Sym("SET")]);
    WordsClean([Sym("UPDATE")]);
    CleanCat(Word("SET"), a);
    CleanCat(WriteTable(c, cs), Cat(Word("SET"), a));
    CleanCat(Word("UPDATE"), Cat(WriteTable(c, cs), Cat(Word("SET"), a)));
  }

  lemma {:induction false} SetClean(c: Compiler, env: Env, cl: Clause)
    requires ClauseOk(c, cl, env)
    requires cl.body.Increment? || (cl.body.UpdateSet? && ValuesProblems(cl.body.columns, cl.body.values) == [])
    ensures Clean(SetSection(env, cl.body).sql)
  {
    if cl.body.UpdateSet? {
      SetPartsClean(env, cl.body.columns, cl.body.values);
      JoinedClean(SetParts(env, cl.body.columns, cl.body.values), ",");
    }
  }

  lemma {:induction false} RemainingClean(c: Compiler, env: Env, table: seq<Token>, inserts: seq<Clause>)
    requires Clean(table) && forall cl <- inserts :: cl.body.InsertRow? && ValuesOk(cl.body.values, env)
    ensures Clean(RemainingRows(c, env, table, inserts).sql)
  {
    if inserts != [] {
      RemainingClean(c, env, table, inserts[1..]);
      assert inserts[0] in inserts;
      var InsertRow(columns, values, _) := inserts[0].body;
      RowValuesClean(env, values);
      NamesClean(columns);
      hide RowValues;
    }
  }

  lemma {:induction false} AssignmentsClean(columns: seq<string>)
    ensures Clean(Assignments(columns))
  {
    if columns != [] { AssignmentsClean(columns[1..]); }
  }

  lemma {:induction false} TailClean(c: Compiler, cs: seq<Clause>)
    ensures Clean(ConflictTail(c, cs))
  {
    var cl := One(cs, Conflict, c.Engine());
    if cl.Some? && cl.value.body.OnConflict? { AssignmentsClean(cl.value.body.columns); }
  }

  /** Accepted insert clauses are all of one form, so no clause is of the other. */
  lemma {:induction false} OneForm(c: Compiler, cs: seq<Clause>, env: Env)
    requires Built(cs) && ScopeOk(c, cs, false, env) && InsertProblems(c, cs) == []
    ensures var inserts := Components(cs, Insert, c.Engine());
      && inserts != []
      && ((forall cl <- inserts :: cl.body.InsertRow? && ValuesOk(cl.body.values, env))
          || (forall cl <- inserts :: cl.body.InsertQuery?))
  {
    hide ScopeOk, ValuesOk, Built, RowsProblems, EmptyConflicts;
    var inserts := Components(cs, Insert, c.Engine());
    assert inserts != [] && !Mixed(inserts);
    InsertsAreOk(c, cs, env);
    hide Components, InsertProblems, Mixed;
  }

  lemma {:induction false} InsertsAreOk(c: Compiler, cs: seq<Clause>, env: Env)
    requires ScopeOk(c, cs, false, env) && Built(cs)
    ensures forall cl <- Components(cs, Insert, c.Engine()) ::
      (cl.body.InsertRow? || cl.body.InsertQuery?) && (cl.body.InsertRow? ==> ValuesOk(cl.body.values, env))
  {
    hide Components, ConditionOk, CteOk, ClauseProblems, ValuesOk, BuiltClause;
    forall cl | cl in Components(cs, Insert, c.Engine())
      ensures cl.body.InsertRow? || cl.body.InsertQuery?
      ensures cl.body.InsertRow? ==> ValuesOk(cl.body.values, env)
    {
      assert cl in cs && ClauseOk(c, cl, env);
      var i :| 0 <= i < |cs| && cs[i] == cl;
      assert BuiltClause(cs[i]);
      InsertKinds(cl);
    }
  }

  lemma {:induction false} InsertKinds(cl: Clause)
    requires BuiltClause(cl) && Tag(cl) == Insert
    ensures cl.body.InsertRow? || cl.body.InsertQuery?
  {
  }

  lemma {:induction false} InsertChainClean(start: Token, table: Out, columns: seq<Token>, values: Out, last: Out)
    requires start.Sym? && Clean(table.sql) && Clean(columns) && Clean(values.sql) && Clean(last.sql)
    ensures Clean(Cat(Text([start]), Cat(table, Cat(Text(columns), Cat(values, last)))).sql)
  {
  }

  lemma {:induction false} InsertColumnsClean(columns: seq<string>)
    ensures Clean(InsertColumns(columns)) && Clean(InsertColumns(columns) + [Sym("VALUES")])
  {
    NamesClean(columns);
  }

  lemma {:induction false} InsertClean(c: Compiler, env: Env, cs: seq<Clause>)
    requires Built(cs) && ScopeOk(c, cs, false, env) && Clean(WriteTable(c, cs).sql)
    requires InsertProblems(c, cs) == []
    ensures Clean(EmitInsert(c, env, cs).sql)
  {
    OneForm(c, cs, env);
    var inserts := Components(cs, Insert, c.Engine());
    var first := inserts[0];
    if first.body.InsertQuery? {
      assert first in inserts && first in cs && ClauseOk(c, first, env);
      InsertQueryClean(c, env, cs);
    } else {
      assert first in inserts;
      InsertRowsClean(c, env, cs);
    }
  }

  lemma {:induction false} SourceOk(c: Compiler, cl: Clause, env: Env)
    requires ClauseOk(c, cl, env) && cl.body.InsertQuery?
    ensures ScopeOk(c, cl.body.query.clauses, false, env + cl.body.query.variables)
  {
    hide ScopeOk;
    EmbeddedScopes(c, cl, env);
  }

  lemma {:induction false} StartIsWord(c: Compiler, cs: seq<Clause>, multi: bool)
    ensures InsertStart(c, cs, multi).Sym?
  {
  }

  lemma {:induction false} InsertQueryClean(c: Compiler, env: Env, cs: seq<Clause>)
    requires Built(cs) && Clean(WriteTable(c, cs).sql)
    requires var inserts := Components(cs, Insert, c.Engine());
      inserts != [] && inserts[0].body.InsertQuery? && ClauseOk(c, inserts[0], env)
    ensures Clean(EmitInsert(c, env, cs).sql)
  {
    hide ScopeOk, ClauseOk, ClauseProblems, Clean, WriteTable, ConflictTail, InsertColumns, InsertStart, Components, BuiltClause;
    var first := Components(cs, Insert, c.Engine())[0];
    assert first in Components(cs, Insert, c.Engine()) && first in cs;
    var i :| 0 <= i < |cs| && cs[i] == first;
    assert BuiltClause(cs[i]);
    BuiltScopes(first);
    SourceOk(c, first, env);
    StartIsWord(c, cs, false);
    var InsertQuery(columns, q) := first.body;
    SelectClean(c, env, q);
    InsertColumnsClean(columns);
    TailClean(c, cs);
    InsertChainClean(InsertStart(c, cs, false), WriteTable(c, cs), InsertColumns(columns), EmitSelect(c, env, q),
                     Text(ConflictTail(c, cs)));
  }

  lemma {:induction false} InsertRowsAre(c: Compiler, env: Env, cs: seq<Clause>)
    requires Components(cs, Insert, c.Engine()) != [] && Components(cs, Insert, c.Engine())[0].body.InsertRow?
    ensures var inserts, table, tail := Components(cs, Insert, c.Engine()), WriteTable(c, cs), Text(ConflictTail(c, cs));
      var InsertRow(columns, values, returnId) := inserts[0].body;
      var multi := |inserts| > 1;
      EmitInsert(c, env, cs) ==
        Cat(Text([InsertStart(c, cs, multi)]),
            Cat(table, Cat(Text(InsertColumns(columns) + [Sym("VALUES")]), Cat(RowValues(env, values),
                if multi then Cat(RemainingRows(c, env, table.sql, inserts[1..]), tail)
                else Cat(tail, Text(LastIdTail(c, returnId)))))))
  {
    hide WriteTable, ConflictTail, InsertColumns, RemainingRows, RowValues, Components, InsertStart, LastIdTail, Cat;
  }

  lemma {:induction false} InsertRowsClean(c: Compiler, env: Env, cs: seq<Clause>)
    requires Clean(WriteTable(c, cs).sql)
    requires var inserts := Components(cs, Insert, c.Engine());
      inserts != [] && forall cl <- inserts :: cl.body.InsertRow? && ValuesOk(cl.body.values, env)
    ensures Clean(EmitInsert(c, env, cs).sql)
  {
    var inserts := Components(cs, Insert, c.Engine());
    assert inserts[0] in inserts;
    var InsertRow(columns, values, returnId) := inserts[0].body;
    var multi := |inserts| > 1;
    var tail := Text(ConflictTail(c, cs));
    var rows := RemainingRows(c, env, WriteTable(c, cs).sql, inserts[1..]);
    StartIsWord(c, cs, multi);
    InsertRowsAre(c, env, cs);
    hide EmitInsert, ValuesOk, Clean, WriteTable, ConflictTail, InsertColumns, RemainingRows, RowValues, Components, InsertStart, LastIdTail;
    RowValuesClean(env, values);
    InsertColumnsClean(columns);
    TailClean(c, cs);
    RemainingClean(c, env, WriteTable(c, cs).sql, inserts[1..]);
    LastIdClean(c, returnId);
    CleanCat(rows, tail);
    CleanCat(tail, Text(LastIdTail(c, returnId)));
    InsertChainClean(InsertStart(c, cs, multi), WriteTable(c, cs), InsertColumns(columns) + [Sym("VALUES")],
                     RowValues(env, values), if multi then Cat(rows, tail) else Cat(tail, Text(LastIdTail(c, returnId))));
  }

  lemma {:induction false} LastIdClean(c: Compiler, returnId: bool)
    ensures Clean(LastIdTail(c, returnId))
  {
  }

  lemma {:induction false} DeleteClean(c: Compiler, env: Env, cs: seq<Clause>)
    requires Built(cs) && ScopeOk(c, cs, false, env) && Clean(WriteTable(c, cs).sql)
    ensures Clean(EmitDelete(c, env, cs).sql)
  {
    hide WhereSection, ScopeOk, Clean, Chosen, EmitClauses, WriteTable, TargetAlias, Built, Joined, AllClean;
    WhereClean(c, env, cs);
    SectionClean(c, env, cs, false, Joins);
    JoinedClean(EmitClauses(c, env, Chosen(c, cs, Joins)), "");
    var table, joins := WriteTable(c, cs), JoinsSection(c, env, cs);
    var target := if TargetAlias(c, cs) != "" then [Quoted(TargetAlias(c, cs))] else table.sql;
    WordsClean([Sym("DELETE FROM")]);
    CleanCat(Word("DELETE FROM"), table);
    CleanCat(Cat(Word("DELETE FROM"), table), joins);
    QuotedClean(TargetAlias(c, cs));
    DeletedClean(target);
    CleanCat(table, joins);
    CleanCat(Text([Sym("DELETE")] + target + [Sym("FROM")]), Cat(table, joins));
    CleanCat(if joins.sql == [] then Cat(Cat(Word("DELETE FROM"), table), joins)
             else Cat(Text([Sym("DELETE")] + target + [Sym("FROM")]), Cat(table, joins)), WhereSection(c, env, cs));
  }

  lemma {:induction false} QuotedClean(alias: string)
    ensures Clean([Quoted(alias)])
  {
  }

  lemma {:induction false} DeletedClean(target: seq<Token>)
    requires Clean(target)
    ensures Clean([Sym("DELETE")] + target + [Sym("FROM")])
  {
  }

  lemma {:induction false} WriteClean(c: Compiler, q: Query)
    requires Accepts(c, q) && Built(q.clauses) && VerbKept(q) && q.verb != MethodSelect
    ensures Clean(EmitWrite(c, q.variables, q.verb, q.clauses).sql)
  {
    ScopeAccepted(c, q.clauses, false, q.variables);
    TargetClean(c, q.clauses, q.variables);
    hide ScopeProblems, ScopeOk;
    match q.verb
    case MethodInsert => InsertClean(c, q.variables, q.clauses);
    case MethodUpdate => UpdateClean(c, q.variables, q.clauses);
    case MethodDelete => DeleteClean(c, q.variables, q.clauses);
    case MethodSelect =>
  }

  // ----- the main result ------------------------------------------------------------------------

  /** Validation soundness: for every query the builder can make, if the compiler
      reports no problem, then printing the statement meets no missing table,
      operator, variable, row or value anywhere. */
  lemma {:induction false} ValidationSound(c: Compiler, q: Query)
    requires Accepts(c, q) && Built(q.clauses) && VerbKept(q)
    ensures Clean(Emitted(c, q).sql)
  {
    ScopeAccepted(c, q.clauses, false, q.variables);
    hide ScopeProblems, ScopeOk, TransformAggregate, EmitWrite, WithCtes, Clean, WriteProblems;
    if q.verb == MethodSelect {
      var compiled := TransformAggregate(q, c.Engine());
      BuiltTransform(q, c.Engine());
      TransformOk(c, q);
      RootEnv(compiled.variables);
      QueryClean(c, map[], compiled);
      WithClean(c, EmitQuery(c, map[], compiled), compiled.clauses, compiled.variables);
      CommentedClean(WithCtes(c, EmitQuery(c, map[], compiled), compiled.clauses), q.comment);
    } else {
      WriteClean(c, q);
      WithClean(c, EmitWrite(c, q.variables, q.verb, q.clauses), q.clauses, q.variables);
      CommentedClean(WithCtes(c, EmitWrite(c, q.variables, q.verb, q.clauses), q.clauses), q.comment);
    }
  }
}
