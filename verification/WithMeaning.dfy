/** The WITH list of a printed statement, read back: the name and the text of every
    definition, and the statement behind them. */
module WithMeaning {
  import opened Ast
  import opened Dialects
  import opened Emit
  import opened Placeholders
  import opened Sections
  import opened Statements
  import C = Ctes
  import CO = CteOrder
  import SA = StatementAlignment
  import TM = TableMeaning

  datatype Definition = Definition(name: string, body: seq<Token>)

  datatype Statement = Statement(definitions: seq<Definition>, main: seq<Token>)

  /** Definitions between commas, and what follows them. */
  function ReadDefinitions(ts: seq<Token>): Option<Statement>
    decreases |ts|
  {
    if |ts| < 4 || !ts[0].Quoted? || ts[1] != Sym("AS (") || !ts[2].Inner? || ts[3] != Sym(")") then None
    else
      var first := Definition(ts[0].alias, ts[2].tokens);
      if |ts| > 4 && ts[4] == Sym(",") then
        match ReadDefinitions(ts[5..])
        case None => None
        case Some(Statement(more, main)) => Some(Statement([first] + more, main))
      else Some(Statement([first], ts[4..]))
  }

  /** A statement behind its comment. */
  function ReadStatement(sql: seq<Token>): Option<Statement> {
    var ts := if sql != [] && sql[0].Remark? then sql[1..] else sql;
    if ts == [] || ts[0] != Sym("WITH") then Some(Statement([], ts)) else ReadDefinitions(ts[1..])
  }

  /** A definition is a CTE clause's: its alias, and the text of its query compiled as
      a root, its raw text, or its rows. */
  predicate Defines(c: Compiler, d: Definition, cl: Clause) {
    match cl.body
    case QueryCte(alias, q) => d.name == alias && d.body == EmitSelect(c, map[], q).sql
    case RawCte(alias, raw) => d.name == alias && d.body == RawOut(c, raw).sql
    case TableCte(alias, columns, rows) =>
      && d.name == alias
      && (rows != [] && TM.Regular(columns, rows) ==> TM.ReadRows(c, d.body) == Some(TM.Records(columns, rows)))
    case _ => false
  }

  predicate Defined(c: Compiler, definitions: seq<Definition>, ctes: seq<Clause>) {
    |definitions| == |ctes| && forall i :: 0 <= i < |ctes| ==> Defines(c, definitions[i], ctes[i])
  }

  /** No list of definitions goes on here, and none begins. */
  predicate Ends(ts: seq<Token>) { ts == [] || (!ts[0].Remark? && ts[0] != Sym("WITH") && ts[0] != Sym(",")) }

  // ----- the list -------------------------------------------------------------------------------

  predicate AreCtes(ctes: seq<Clause>) {
    forall cl <- ctes :: cl.body.QueryCte? || cl.body.RawCte? || cl.body.TableCte?
  }

  lemma {:induction false} CteReads(c: Compiler, cl: Clause, rest: seq<Token>)
    requires cl.body.QueryCte? || cl.body.RawCte? || cl.body.TableCte?
    ensures var ts := EmitClause(c, map[], cl).sql;
      && |ts| == 4 && ts[0].Quoted? && ts[1] == Sym("AS (") && ts[2].Inner? && ts[3] == Sym(")")
      && Defines(c, Definition(ts[0].alias, ts[2].tokens), cl)
  {
    hide EmitSelect, RawOut, TableOut, TM.Regular, TM.ReadRows, TM.Records;
    if cl.body.TableCte? && cl.body.rows != [] && TM.Regular(cl.body.columns, cl.body.rows) {
      TM.RowsRead(c, cl.body.columns, cl.body.rows);
    }
  }

  lemma {:induction false} ListReads(c: Compiler, ctes: seq<Clause>, main: seq<Token>)
    requires ctes != [] && AreCtes(ctes) && Ends(main)
    ensures var r := ReadDefinitions(Joined(EmitClauses(c, map[], ctes), ",").sql + main);
      r.Some? && r.value.main == main && Defined(c, r.value.definitions, ctes)
  {
    CteReads(c, ctes[0], main);
    var first, rest := EmitClause(c, map[], ctes[0]), EmitClauses(c, map[], ctes[1..]);
    assert EmitClauses(c, map[], ctes) == [first] + rest;
    hide EmitClause, EmitClauses, Defines, Ends;
    assert ([first] + rest)[1..] == rest;
    if |ctes| == 1 {
      assert rest == [];
      OneDefinition(first.sql, main);
    } else {
      hide ReadDefinitions;
      ListReads(c, ctes[1..], main);
      var more := Joined(rest, ",").sql + main;
      NextDefinition(first.sql, more);
      assert (first.sql + ([Sym(",")] + Joined(rest, ",").sql)) + main == first.sql + ([Sym(",")] + more);
      var d := Definition(first.sql[0].alias, first.sql[2].tokens);
      DefinedCons(c, d, ReadDefinitions(more).value.definitions, ctes);
    }
  }

  lemma {:induction false} OneDefinition(first: seq<Token>, main: seq<Token>)
    requires |first| == 4 && first[0].Quoted? && first[1] == Sym("AS (") && first[2].Inner? && first[3] == Sym(")") && Ends(main)
    ensures ReadDefinitions(first + main) == Some(Statement([Definition(first[0].alias, first[2].tokens)], main))
  {
    assert (first + main)[4..] == main;
  }

  lemma {:induction false} NextDefinition(first: seq<Token>, more: seq<Token>)
    requires |first| == 4 && first[0].Quoted? && first[1] == Sym("AS (") && first[2].Inner? && first[3] == Sym(")")
    requires ReadDefinitions(more).Some?
    ensures var r := ReadDefinitions(more).value;
      ReadDefinitions(first + ([Sym(",")] + more)) ==
        Some(Statement([Definition(first[0].alias, first[2].tokens)] + r.definitions, r.main))
  {
    assert (first + ([Sym(",")] + more))[5..] == more;
  }

  lemma {:induction false} DefinedCons(c: Compiler, d: Definition, more: seq<Definition>, ctes: seq<Clause>)
    requires ctes != [] && Defines(c, d, ctes[0]) && Defined(c, more, ctes[1..])
    ensures Defined(c, [d] + more, ctes)
  {
    hide Defines;
    forall i | 0 <= i < |ctes| ensures Defines(c, ([d] + more)[i], ctes[i]) {
      if i > 0 { assert ctes[i] == ctes[1..][i - 1]; }
    }
  }

  // ----- the statement ------------------------------------------------------------------------------

  lemma {:induction false} WriteEnds(c: Compiler, env: Env, verb: Method, cs: seq<Clause>)
    ensures Ends(EmitWrite(c, env, verb, cs).sql)
  {
    match verb
    case MethodSelect =>
    case MethodInsert => InsertEnds(c, env, cs);
    case MethodUpdate => UpdateEnds(c, env, cs);
    case MethodDelete => DeleteEnds(c, env, cs);
  }

  lemma {:induction false} TableEnds(c: Compiler, cs: seq<Clause>)
    ensures Ends(WriteTable(c, cs).sql)
  {
    hide One, ExpressionTokens;
  }

  lemma {:induction false} InsertEnds(c: Compiler, env: Env, cs: seq<Clause>)
    ensures Ends(EmitInsert(c, env, cs).sql)
  {
    TableEnds(c, cs);
    hide WriteTable, ConflictTail, RemainingRows, RowValues, InsertColumns, EmitSelect, Components, One, LastIdTail;
    assert |"INSERT IGNORE INTO"| == 18 && |"INSERT ALL INTO"| == 15 && |"INSERT INTO"| == 11 && |"WITH"| == 4 && |","| == 1;
  }

  lemma {:induction false} UpdateEnds(c: Compiler, env: Env, cs: seq<Clause>)
    ensures Ends(EmitUpdate(c, env, cs).sql)
  {
    hide WriteTable, SetSection, WhereSection, One;
    assert |"UPDATE"| == 6 && |"WITH"| == 4 && |","| == 1;
  }

  lemma {:induction false} DeleteEnds(c: Compiler, env: Env, cs: seq<Clause>)
    ensures Ends(EmitDelete(c, env, cs).sql)
  {
    hide WriteTable, JoinsSection, WhereSection, TargetAlias;
    assert |"DELETE FROM"| == 11 && |"DELETE"| == 6 && |"WITH"| == 4 && |","| == 1;
  }

  lemma {:induction false} SelectEnds(c: Compiler, outer: Env, q: Query)
    ensures Ends(EmitQuery(c, outer, q).sql)
  {
    QueryOpens(c, outer, q);
    hide EmitQuery;
    assert |"SELECT"| == 6 && |"WITH"| == 4 && |","| == 1;
  }

  lemma {:induction false} StatementReads(c: Compiler, out: Out, cs: seq<Clause>, comment: string)
    requires Built(cs) && Ends(out.sql)
    ensures var r := ReadStatement(Commented(WithCtes(c, out, cs), comment).sql);
      r.Some? && r.value.main == out.sql && Defined(c, r.value.definitions, C.Find(c.Engine(), {}, cs).ctes)
  {
    var ctes := C.Find(c.Engine(), {}, cs).ctes;
    FoundAreCtes(c.Engine(), cs);
    hide C.Find, EmitClauses, Joined, Built, Defines, ReadDefinitions;
    var text := WithCtes(c, out, cs).sql;
    if ctes == [] {
      assert text == out.sql;
    } else {
      ListReads(c, ctes, out.sql);
      assert text == [Sym("WITH")] + (Joined(EmitClauses(c, map[], ctes), ",").sql + out.sql);
      assert text[1..] == Joined(EmitClauses(c, map[], ctes), ",").sql + out.sql;
    }
    assert ([Remark(comment)] + text)[1..] == text;
  }

  lemma {:induction false} FoundAreCtes(engine: string, cs: seq<Clause>)
    requires Built(cs)
    ensures AreCtes(C.Find(engine, {}, cs).ctes)
  {
    var ctes := C.Find(engine, {}, cs).ctes;
    SA.BuiltFound(engine, cs);
    SA.CtesTagged(engine, cs);
    hide C.Find;
    forall cl | cl in ctes ensures cl.body.QueryCte? || cl.body.RawCte? || cl.body.TableCte? {
      var i :| 0 <= i < |ctes| && ctes[i] == cl;
      assert BuiltClause(ctes[i]) && Tag(cl) == Cte;
    }
  }

  /** What a statement prints behind its WITH list. */
  function Main(c: Compiler, q: Query): seq<Token> {
    if q.verb == MethodSelect then EmitQuery(c, map[], TransformAggregate(q, c.Engine())).sql
    else EmitWrite(c, q.variables, q.verb, q.clauses).sql
  }

  /** The clauses that the WITH list is collected from. */
  function Searched(c: Compiler, q: Query): seq<Clause> {
    if q.verb == MethodSelect then TransformAggregate(q, c.Engine()).clauses else q.clauses
  }

  /** For every built statement: the printed WITH list, read back, has one definition
      for each collected CTE, in order, with its alias and its body compiled as a root;
      what is behind it is the statement itself. */
  lemma {:induction false} DefinitionsRead(c: Compiler, q: Query)
    requires Built(q.clauses)
    ensures var r := ReadStatement(Emitted(c, q).sql); var ctes := C.Find(c.Engine(), {}, Searched(c, q)).ctes;
      r.Some? && r.value.main == Main(c, q) && Defined(c, r.value.definitions, ctes)
  {
    hide C.Find, EmitQuery, EmitWrite, ReadStatement, Defined, Built, WithCtes, Ends, Commented;
    if q.verb == MethodSelect {
      var compiled := TransformAggregate(q, c.Engine());
      SA.BuiltTransform(q, c.Engine());
      SelectEnds(c, map[], compiled);
      StatementReads(c, EmitQuery(c, map[], compiled), compiled.clauses, q.comment);
    } else {
      WriteEnds(c, q.variables, q.verb, q.clauses);
      StatementReads(c, EmitWrite(c, q.variables, q.verb, q.clauses), q.clauses, q.comment);
    }
  }

  // ----- the order of the definitions -----------------------------------------------------------------

  function Names(definitions: seq<Definition>): set<string> { set d <- definitions :: d.name }

  /** Every definition stands behind those of the aliases that its body declares. */
  predicate InOrder(engine: string, definitions: seq<Definition>, ctes: seq<Clause>)
    requires |definitions| == |ctes|
  {
    forall i :: 0 <= i < |ctes| ==> CO.Uses(engine, ctes[i]) <= Names(definitions[..i])
  }

  lemma {:induction false} NamesAre(c: Compiler, definitions: seq<Definition>, ctes: seq<Clause>)
    requires Defined(c, definitions, ctes)
    ensures Names(definitions) == C.Aliases(ctes)
  {
    forall i | 0 <= i < |ctes| ensures definitions[i].name == C.Alias(ctes[i]) {
      assert Defines(c, definitions[i], ctes[i]);
    }
  }

  /** The printed list has every alias that a definition may refer to in front of it if
      and only if no definition redeclares a pending alias. */
  lemma {:induction false} PrintedOrderIsExact(c: Compiler, q: Query)
    requires Built(q.clauses)
    ensures var r := ReadStatement(Emitted(c, q).sql); var ctes := C.Find(c.Engine(), {}, Searched(c, q)).ctes;
      && r.Some? && |r.value.definitions| == |ctes|
      && (InOrder(c.Engine(), r.value.definitions, ctes) <==> CO.Clear(c.Engine(), {}, {}, Searched(c, q)))
  {
    DefinitionsRead(c, q);
    CO.OrderIsExact(c.Engine(), Searched(c, q));
    hide C.Find, ReadStatement, Emitted, CO.Clear, Searched, CO.Uses, Defined, InOrder, Built, CO.OrderedAfter;
    SameOrder(c, ReadStatement(Emitted(c, q).sql).value.definitions, C.Find(c.Engine(), {}, Searched(c, q)).ctes);
  }

  lemma {:induction false} SameOrder(c: Compiler, definitions: seq<Definition>, ctes: seq<Clause>)
    requires Defined(c, definitions, ctes)
    ensures |definitions| == |ctes|
    ensures InOrder(c.Engine(), definitions, ctes) <==> CO.OrderedAfter(c.Engine(), {}, ctes)
  {
    hide CO.Uses, Names, C.Aliases, Defines;
    forall i | 0 <= i < |ctes| ensures Names(definitions[..i]) == {} + C.Aliases(ctes[..i]) {
      assert forall j :: 0 <= j < i ==> Defines(c, definitions[j], ctes[j]);
      NamesAre(c, definitions[..i], ctes[..i]);
    }
  }
}
