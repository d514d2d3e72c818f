/** Which rows a printed DELETE takes out of its table, executed with its arguments. */
module DeleteMeaning {
  import opened Ast
  import opened Conditions
  import opened Dialects
  import opened Emit
  import opened Executing
  import opened JoinMeaning
  import opened Keywords
  import opened Placeholders
  import opened Sections
  import opened Statements
  import VM = VerbMeaning

  // ----- reading a DELETE ----------------------------------------------------------------------

  /** What to delete from, the joined tables, and the condition. */
  datatype Deletion = Deletion(target: seq<Token>, table: seq<Token>, joins: seq<ReadJoin>, where: seq<Token>)

  /** The table and the joins up to the condition. */
  function ReadTables(body: seq<Token>): Option<(seq<Token>, seq<ReadJoin>)> {
    match ReadJoins(Keywords.From(body, JoinKinds))
    case None => None
    case Some(joins) => Some((UpTo(body, JoinKinds), joins))
  }

  function ReadDelete(sql: seq<Token>): Option<Deletion> {
    if sql == [] then None
    else if sql[0] == Sym("DELETE FROM") then
      var table := UpTo(sql[1..], {"WHERE"});
      Some(Deletion(table, table, [], Keywords.From(sql[1..], {"WHERE"})))
    else if sql[0] == Sym("DELETE") then
      var target, rest := UpTo(sql[1..], {"FROM"}), Keywords.From(sql[1..], {"FROM"});
      if rest == [] then None
      else
        match ReadTables(UpTo(rest[1..], {"WHERE"}))
        case None => None
        case Some((table, joins)) => Some(Deletion(target, table, joins, Keywords.From(rest[1..], {"WHERE"})))
    else None
  }

  /** A row of the table is deleted when some joined row that it begins passes. */
  ghost predicate Deletes<R(!new)>(db: Database<R>, d: Deletion, row: R) {
    var rows := JoinAll(db, d.joins, 1, Single(db.rows(d.table)));
    rows.Some? && exists t <- rows.value :: t != [] && t[0] == Some(row) && VM.ReadTruth(db.reading(t), "WHERE", d.where) == Some(True)
  }

  // ----- what the clauses ask for -----------------------------------------------------------------

  /** The same by the joins and the conditions that the dialect sees. */
  ghost predicate Asks<R(!new)>(c: Compiler, env: Env, db: Database<R>, cs: seq<Clause>, row: R)
    requires forall cl <- Components(cs, Joins, c.Engine()) :: cl.body.Join?
  {
    var rows := Wanted(c, env, db, Components(cs, Joins, c.Engine()), 1, Single(db.rows(WriteTable(c, cs).sql)));
    var wheres := Components(cs, Where, c.Engine());
    rows.Some? && exists t <- rows.value :: t != [] && t[0] == Some(row) && VM.Passes(Items(c, env, db.reading(t), wheres)) == True
  }

  /** What a joined delete names as its target: the alias of the table, or the table. */
  function TargetText(c: Compiler, cs: seq<Clause>): seq<Token> {
    if TargetAlias(c, cs) != "" then [Quoted(TargetAlias(c, cs))] else WriteTable(c, cs).sql
  }

  // ----- the text ------------------------------------------------------------------------------------

  lemma {:induction false} TableIsFree(c: Compiler, cs: seq<Clause>)
    ensures Free(WriteTable(c, cs).sql, {"WHERE"}) && Free(WriteTable(c, cs).sql, {"FROM"}) && Free(WriteTable(c, cs).sql, JoinKinds)
    ensures Free(TargetText(c, cs), {"FROM"})
  {
    hide One, ExpressionTokens, TargetAlias, JoinKinds;
  }

  lemma {:induction false} JoinlessReads(table: seq<Token>, where: seq<Token>)
    requires Free(table, {"WHERE"}) && (where == [] || where[0] == Sym("WHERE"))
    ensures ReadDelete([Sym("DELETE FROM")] + (table + where)) == Some(Deletion(table, table, [], where))
  {
    hide Free, UpTo, Keywords.From;
    assert ([Sym("DELETE FROM")] + (table + where))[1..] == table + where;
    assert where == [] || Opens(where[0], {"WHERE"});
    SplitsAt(table, where, {"WHERE"});
  }

  lemma {:induction false} JoinedReads(target: seq<Token>, table: seq<Token>, joins: seq<Token>, where: seq<Token>)
    requires Free(target, {"FROM"}) && Free(table, JoinKinds) && Free(table, {"WHERE"}) && Free(joins, {"WHERE"}) && Starts(joins, JoinKinds)
    requires where == [] || where[0] == Sym("WHERE")
    ensures ReadDelete([Sym("DELETE")] + (target + ([Sym("FROM")] + ((table + joins) + where)))) ==
      match ReadJoins(joins) case None => None case Some(found) => Some(Deletion(target, table, found, where))
  {
    hide Free, UpTo, Keywords.From, JoinKinds, ReadJoins;
    var rest := [Sym("FROM")] + ((table + joins) + where);
    assert ([Sym("DELETE")] + (target + rest))[1..] == target + rest && rest[1..] == (table + joins) + where;
    assert |"DELETE"| == 6 && |"DELETE FROM"| == 11;
    assert Opens(rest[0], {"FROM"}) && (where == [] || Opens(where[0], {"WHERE"}));
    SplitsAt(target, rest, {"FROM"});
    FreeCat(table, joins, {"WHERE"});
    SplitsAt(table + joins, where, {"WHERE"});
    SplitsAt(table, joins, JoinKinds);
  }

  lemma {:induction false} WhereIsOpener()
    ensures {"WHERE"} <= Openers
  {
  }

  lemma {:induction false} JoinsText(c: Compiler, env: Env, cs: seq<Clause>)
    requires Built(cs) && NamedJoins(Components(cs, Joins, c.Engine()))
    ensures var joins := Components(cs, Joins, c.Engine()); var sql := JoinsSection(c, env, cs).sql;
      && (forall cl <- joins :: cl.body.Join? && cl.body.kind in JoinKinds && BuiltClause(cl))
      && sql == Dialects.Joined(EmitClauses(c, env, joins), "").sql
      && Starts(sql, JoinKinds) && Free(sql, {"WHERE"}) && (sql == [] <==> joins == [])
  {
    JoinsAre(c, cs);
    JoinsAreFree(c, env, cs);
    WhereIsOpener();
    hide Built, NamedJoins, Components, Chosen, EmitClauses, Dialects.Joined, Openers, JoinKinds, Free, BuiltClause, JoinsEnd;
    FreeWithin(JoinsSection(c, env, cs).sql, {"WHERE"}, Openers);
    ListIsPrinted(c, env, Components(cs, Joins, c.Engine()));
  }

  /** The text of a delete, with and without joins. */
  lemma {:induction false} DeletePrints(c: Compiler, env: Env, cs: seq<Clause>)
    ensures var table, joins, where := WriteTable(c, cs).sql, JoinsSection(c, env, cs).sql, WhereSection(c, env, cs).sql;
      EmitDelete(c, env, cs).sql ==
        if joins == [] then [Sym("DELETE FROM")] + (table + where)
        else [Sym("DELETE")] + (TargetText(c, cs) + ([Sym("FROM")] + ((table + joins) + where)))
  {
    hide WriteTable, JoinsSection, WhereSection, TargetAlias;
    var table, joins, where := WriteTable(c, cs).sql, JoinsSection(c, env, cs).sql, WhereSection(c, env, cs).sql;
    JoinlessText(table, where);
    JoinedText(TargetText(c, cs), table, joins, where);
  }

  lemma {:induction false} JoinlessText(table: seq<Token>, where: seq<Token>)
    ensures (([Sym("DELETE FROM")] + table) + []) + where == [Sym("DELETE FROM")] + (table + where)
  {
  }

  lemma {:induction false} JoinedText(target: seq<Token>, table: seq<Token>, joins: seq<Token>, where: seq<Token>)
    ensures (([Sym("DELETE")] + target + [Sym("FROM")]) + (table + joins)) + where
         == [Sym("DELETE")] + (target + ([Sym("FROM")] + ((table + joins) + where)))
  {
  }

  /** What is read from the text of a delete. */
  lemma {:induction false} DeleteReads<R(!new)>(c: Compiler, env: Env, cs: seq<Clause>, db: Database<R>)
    requires Built(cs) && NamedJoins(Components(cs, Joins, c.Engine())) && LawfulOn(db)
    ensures var joins := Components(cs, Joins, c.Engine()); var d := ReadDelete(EmitDelete(c, env, cs).sql);
      && (forall cl <- joins :: cl.body.Join?)
      && d.Some? && d.value.table == WriteTable(c, cs).sql && d.value.where == WhereSection(c, env, cs).sql
      && d.value.target == (if joins == [] then WriteTable(c, cs).sql else TargetText(c, cs))
      && AllFaithful(c, env, db, d.value.joins, joins)
  {
    var joins := Components(cs, Joins, c.Engine());
    DeletePrints(c, env, cs);
    TableIsFree(c, cs);
    JoinsText(c, env, cs);
    WhereStarts(c, env, cs);
    hide EmitDelete, WriteTable, JoinsSection, WhereSection, TargetText, Built, NamedJoins, Components, LawfulOn, EmitClauses, Dialects.Joined,
      JoinKinds, Free, BuiltClause, ReadDelete, ReadJoins, AllFaithful;
    JoinListReads(c, env, db, joins);
    if joins == [] {
      JoinlessReads(WriteTable(c, cs).sql, WhereSection(c, env, cs).sql);
      NoneFaithful(c, env, db);
    } else {
      JoinedReads(TargetText(c, cs), WriteTable(c, cs).sql, JoinsSection(c, env, cs).sql, WhereSection(c, env, cs).sql);
    }
  }

  lemma {:induction false} NoneFaithful<R(!new)>(c: Compiler, env: Env, db: Database<R>)
    ensures AllFaithful(c, env, db, [], [])
  {
  }

  lemma {:induction false} WhereStarts(c: Compiler, env: Env, cs: seq<Clause>)
    ensures var sql := WhereSection(c, env, cs).sql; sql == [] || sql[0] == Sym("WHERE")
  {
    hide Connect, EmitClauses, Chosen;
  }

  /** Every accepted delete whose placeholders stand for its arguments, executed: it names
      its table (by its alias where it has joins and the table has one), and a row of the
      table is deleted exactly when it begins some joined row that passes the conditions. */
  lemma {:induction false} DeleteMeans<R(!new)>(c: Compiler, q: Query, db: Database<R>, row: R)
    requires Built(q.clauses) && NamedJoins(Components(q.clauses, Joins, c.Engine())) && q.verb == MethodDelete
    requires Aligned(Emitted(c, q)) && LawfulOn(db)
    ensures var d := ReadDelete(Executed(c, q)); var joins := Components(q.clauses, Joins, c.Engine());
      && (forall cl <- joins :: cl.body.Join?)
      && d.Some? && d.value.table == WriteTable(c, q.clauses).sql
      && d.value.target == (if joins == [] then WriteTable(c, q.clauses).sql else TargetText(c, q.clauses))
      && (Deletes(db, d.value, row) <==> Asks(c, q.variables, db, q.clauses, row))
  {
    var cs, env := q.clauses, q.variables;
    hide Built, NamedJoins, Components, Aligned, Emitted, LawfulOn, EmitDelete, WriteTable, TargetText, Executed, ReadDelete, AllFaithful,
      Deletes, Asks, WhereSection;
    ExecutedIs(c, q);
    DeleteReads(c, env, cs, db);
    SameDeletion(c, env, cs, db, ReadDelete(EmitDelete(c, env, cs).sql).value, row);
  }

  lemma {:induction false} SameDeletion<R(!new)>(c: Compiler, env: Env, cs: seq<Clause>, db: Database<R>, d: Deletion, row: R)
    requires Built(cs) && LawfulOn(db) && forall cl <- Components(cs, Joins, c.Engine()) :: cl.body.Join?
    requires d.table == WriteTable(c, cs).sql && d.where == WhereSection(c, env, cs).sql
    requires AllFaithful(c, env, db, d.joins, Components(cs, Joins, c.Engine()))
    ensures Deletes(db, d, row) <==> Asks(c, env, db, cs, row)
  {
    var wheres := Components(cs, Where, c.Engine());
    WhereIs(c, env, cs);
    EvaluatesAlike(c, env, db, d.joins, Components(cs, Joins, c.Engine()), 1, Single(db.rows(d.table)));
    forall t: Tuple<R> ensures VM.ReadTruth(db.reading(t), "WHERE", d.where) == Some(VM.Passes(Items(c, env, db.reading(t), wheres))) {
      hide Built, Components, WriteTable, WhereSection, AllFaithful, Lawful, VM.ReadTruth, VM.Passes, Items, EmitClauses, ConditionSection;
      VM.SectionReads(c, env, db.reading(t), cs, Where, "WHERE");
    }
    hide Built, Components, WriteTable, WhereSection, AllFaithful, LawfulOn, VM.ReadTruth, VM.Passes, Items, EmitClauses, ConditionSection,
      JoinAll, Wanted, Single;
  }

  lemma {:induction false} WhereIs(c: Compiler, env: Env, cs: seq<Clause>)
    ensures var list := Components(cs, Where, c.Engine());
      WhereSection(c, env, cs).sql == ConditionSection("WHERE", list, EmitClauses(c, env, list)).sql
  {
    hide ConditionSection, EmitClauses, Components;
  }
}
