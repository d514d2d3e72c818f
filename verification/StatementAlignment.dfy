/** Alignment of whole statements: the WITH prefix, the aggregate rewrite and the
    write verbs on top of module Alignment. */
module StatementAlignment {
  import opened Ast
  import opened Dialects
  import opened Emit
  import opened Placeholders
  import opened Alignment
  import opened Statements
  import C = Ctes

  // ----- what the rewrites keep --------------------------------------------------------

  lemma {:induction false} BuiltTransform(q: Query, engine: string)
    requires Built(q.clauses)
    ensures Built(TransformAggregate(q, engine).clauses)
  {
    var cl := One(q.clauses, Aggregate, engine);
    if cl.Some? && cl.value.body.Aggregated? {
      var Aggregated(kind, columns) := cl.value.body;
      BuiltSubset(q.clauses, Drop(q, {Limit, Order, Group}).clauses);
      BuiltInner(q, kind, columns);
      BuiltPair(Clause("", Aggregated(kind, ["*"])), Clause("", FromQuery(InnerQuery(q, kind, columns))));
    }
  }

  lemma {:induction false} BuiltInner(q: Query, kind: string, columns: seq<string>)
    requires Built(q.clauses)
    ensures Built(InnerQuery(q, kind, columns).clauses)
  {
    hide BuiltClause, Without, Built;
    var bare := Drop(q, {Limit, Order, Group});
    BuiltSubset(q.clauses, bare.clauses);
    AddedBuilt(q.engineScope, columns);
    if q.distinct {
      BuiltSubset(bare.clauses, Drop(bare, {Aggregate, Select}).clauses);
      BuiltAppend(Drop(bare, {Aggregate, Select}), ColumnBodies(columns));
    } else {
      BuiltAppend(bare, GuardBodies(columns));
    }
  }

  lemma {:induction false} AddedBuilt(engine: string, columns: seq<string>)
    ensures forall b <- ColumnBodies(columns) :: BuiltClause(Clause(engine, b))
    ensures forall b <- GuardBodies(columns) :: BuiltClause(Clause(engine, b))
  {
  }

  lemma {:induction false} BuiltPair(a: Clause, b: Clause)
    requires BuiltClause(a) && BuiltClause(b)
    ensures Built([a, b])
  {
  }

  lemma {:induction false} BuiltAll(engine: string, cs: seq<Clause>)
    requires Built(cs)
    ensures Built(C.All(engine, cs))
    decreases ClausesSize(cs), 3
  {
    BuiltSubset(cs, Components(cs, Cte, engine));
    BuiltAllLevel(engine, Components(cs, Cte, engine));
    BuiltAllRest(engine, cs);
    BuiltConcat(C.AllLevel(engine, Components(cs, Cte, engine)), C.AllRest(engine, cs));
  }

  lemma {:induction false} BuiltAllLevel(engine: string, ctes: seq<Clause>)
    requires Built(ctes)
    ensures Built(C.AllLevel(engine, ctes))
    decreases ClausesSize(ctes), 2
  {
    if ctes != [] {
      var cl := ctes[0];
      BuiltSubset(ctes, ctes[1..]);
      BuiltAllLevel(engine, ctes[1..]);
      if C.CteBody(cl).Some? { BuiltAll(engine, C.CteBody(cl).value); }
      BuiltConcat([cl], C.AllBody(engine, cl));
      BuiltConcat([cl] + C.AllBody(engine, cl), C.AllLevel(engine, ctes[1..]));
    }
  }

  lemma {:induction false} BuiltAllRest(engine: string, cs: seq<Clause>)
    requires Built(cs)
    ensures Built(C.AllRest(engine, cs))
    decreases ClausesSize(cs), 2
  {
    if cs != [] {
      BuiltSubset(cs, cs[1..]);
      BuiltAllRest(engine, cs[1..]);
      var inside := if C.Searched(cs[0], engine) then C.All(engine, C.Scope(cs[0]).value) else [];
      if C.Searched(cs[0], engine) { BuiltAll(engine, C.Scope(cs[0]).value); }
      BuiltConcat(inside, C.AllRest(engine, cs[1..]));
    }
  }

  lemma {:induction false} BuiltConcat(a: seq<Clause>, b: seq<Clause>)
    requires Built(a) && Built(b)
    ensures Built(a + b)
  {
    forall i | 0 <= i < |a + b| ensures BuiltClause((a + b)[i]) {
      if i < |a| { assert (a + b)[i] == a[i]; } else { assert (a + b)[i] == b[i - |a|]; }
    }
  }

  lemma {:induction false} BuiltFound(engine: string, cs: seq<Clause>)
    requires Built(cs)
    ensures Built(C.Find(engine, {}, cs).ctes)
  {
    BuiltAll(engine, cs);
    C.FindWithin(engine, {}, cs);
    BuiltSubset(C.All(engine, cs), C.Find(engine, {}, cs).ctes);
  }

  // ----- the condition -------------------------------------------------------------------

  /** The raw target table of a write verb. */
  function TargetRaw(c: Compiler, cs: seq<Clause>): Option<Raw> {
    var cl := One(cs, From, c.Engine());
    if cl.Some? && cl.value.body.FromRaw? then Some(cl.value.body.raw) else None
  }

  predicate HasRow(inserts: seq<Clause>) {
    inserts != [] && (inserts[0].body.InsertRow? || HasRow(inserts[1..]))
  }

  /** The target table's text appears more than once: a delete with joins and no
      alias, or an Oracle insert of several rows. */
  predicate RepeatsTarget(c: Compiler, verb: Method, cs: seq<Clause>) {
    match verb
    case MethodDelete => Chosen(c, cs, Joins) != [] && TargetAlias(c, cs) == ""
    case MethodInsert =>
      var inserts := Components(cs, Insert, c.Engine());
      c.dialect.Oracle? && |inserts| > 1 && inserts[0].body.InsertRow? && HasRow(inserts[1..])
    case _ => false
  }

  /** The repetition matters only when the target carries bindings. */
  predicate RepeatsBindings(c: Compiler, verb: Method, cs: seq<Clause>) {
    RepeatsTarget(c, verb, cs) && TargetRaw(c, cs).Some? && TargetRaw(c, cs).value.bindings != []
  }

  predicate BalancedTarget(c: Compiler, cs: seq<Clause>) {
    TargetRaw(c, cs).Some? ==> RawBalanced(TargetRaw(c, cs).value)
  }

  predicate BalancedWrite(c: Compiler, verb: Method, cs: seq<Clause>) {
    match verb
    case MethodInsert =>
      var inserts := Components(cs, Insert, c.Engine());
      BalancedTarget(c, cs)
      && (inserts != [] && inserts[0].body.InsertQuery? ==> BalancedQuery(c, inserts[0].body.query))
    case MethodUpdate =>
      if One(cs, Update, c.Engine()).None? then TargetRaw(c, cs).Some? ==> TargetRaw(c, cs).value.bindings == []
      else BalancedTarget(c, cs) && BalancedClauses(c, Chosen(c, cs, Where))
    case MethodDelete =>
      BalancedTarget(c, cs) && BalancedClauses(c, Chosen(c, cs, Joins)) && BalancedClauses(c, Chosen(c, cs, Where))
    case MethodSelect => true
  }

  predicate BalancedStatement(c: Compiler, q: Query) {
    if q.verb == MethodSelect then
      var compiled := TransformAggregate(q, c.Engine());
      BalancedQuery(c, compiled) && BalancedClauses(c, C.Find(c.Engine(), {}, compiled.clauses).ctes)
    else
      BalancedWrite(c, q.verb, q.clauses) && BalancedClauses(c, C.Find(c.Engine(), {}, q.clauses).ctes)
  }

  // ----- write fragments --------------------------------------------------------------------

  lemma {:induction false} TargetStands(c: Compiler, cs: seq<Clause>)
    requires Built(cs)
    ensures var o := WriteTable(c, cs); Settled(o) && (Aligned(o) <==> BalancedTarget(c, cs))
  {
    Wordless([Fault(NoTable)]);
    var from := One(cs, From, c.Engine());
    if from.Some? {
      var cl := from.value;
      var i :| 0 <= i < |cs| && cs[i] == cl;
      assert BuiltClause(cs[i]);
      if cl.body.FromTable? { Wordless([Ident(cl.body.table)]); }
      if cl.body.FromRaw? { RawStands(c, cl.body.raw); }
    }
  }

  lemma {:induction false} RowValuesAligned(env: Env, values: seq<Value>)
    ensures Aligned(RowValues(env, values))
  {
    ParameterizeAligned(env, values);
    Wordless([Sym(")")]);
    AlignedCat(Parameterize(env, values), Word(")"));
    TextThen([Sym("(")], Cat(Parameterize(env, values), Word(")")));
  }

  lemma {:induction false} AssignmentsHoleless(columns: seq<string>)
    ensures Holeless(Assignments(columns))
  {
    if columns != [] { AssignmentsHoleless(columns[1..]); }
  }

  lemma {:induction false} ColumnsHoleless(columns: seq<string>)
    ensures Holeless(InsertColumns(columns))
  {
    NamesHoleless(columns);
  }

  lemma {:induction false} TailAligned(c: Compiler, cs: seq<Clause>)
    ensures Aligned(Text(ConflictTail(c, cs)))
  {
    var cl := One(cs, Conflict, c.Engine());
    if cl.Some? && cl.value.body.OnConflict? { AssignmentsHoleless(cl.value.body.columns); }
    Wordless(ConflictTail(c, cs));
  }

  /** The number of placeholders by which a fragment exceeds its arguments. */
  function Excess(o: Out): int { |Holes(o.sql)| - |o.args| }

  lemma {:induction false} ExcessCat(a: Out, b: Out)
    ensures Excess(Cat(a, b)) == Excess(a) + Excess(b)
  {
    HolesConcat(a.sql, b.sql);
  }

  lemma {:induction false} ExcessOfAligned(o: Out)
    requires Aligned(o)
    ensures Excess(o) == 0 && Settled(o)
  {
  }

  /** Oracle's repetition of the table in front of a further row. */
  lemma {:induction false} RepetitionStands(table: seq<Token>, columns: seq<string>)
    ensures var o := Text([Sym("INTO")] + table + InsertColumns(columns) + [Sym("VALUES")]);
      Excess(o) == |Holes(table)| && (Aligned(o) <==> Holes(table) == [])
  {
    ColumnsHoleless(columns);
    var after := InsertColumns(columns) + [Sym("VALUES")];
    Around([Sym("INTO")], Text(table), after);
    assert [Sym("INTO")] + table + after == [Sym("INTO")] + table + InsertColumns(columns) + [Sym("VALUES")];
  }

  /** One row in front of rows that stand as RemainingStands says. */
  lemma {:induction false} RowThenRest(c: Compiler, table: seq<Token>, columns: seq<string>, row: Out, rest: Out, more: bool)
    requires Aligned(row) && Excess(rest) >= 0
    requires !c.dialect.Oracle? || Holes(table) == [] || !more ==> Aligned(rest)
    ensures var head := if c.dialect.Oracle? then Text([Sym("INTO")] + table + InsertColumns(columns) + [Sym("VALUES")]) else Word(",");
      var o := Cat(Cat(head, row), rest);
      && Excess(o) >= 0
      && (c.dialect.Oracle? && Holes(table) != [] ==> Excess(o) > 0)
      && (!c.dialect.Oracle? || Holes(table) == [] ==> Aligned(o))
  {
    hide Aligned, Excess, Holes, InsertColumns;
    var head := if c.dialect.Oracle? then Text([Sym("INTO")] + table + InsertColumns(columns) + [Sym("VALUES")]) else Word(",");
    RepetitionStands(table, columns);
    Wordless([Sym(",")]);
    ExcessOfAligned(Word(","));
    ExcessOfAligned(row);
    ExcessCat(head, row);
    ExcessCat(Cat(head, row), rest);
    if Aligned(head) && Aligned(rest) {
      AlignedCat(head, row);
      AlignedCat(Cat(head, row), rest);
    }
  }

  /** Without repeated bindings the remaining rows are aligned; every repetition
      of a table with placeholders adds them without an argument. */
  lemma {:induction false} RemainingStands(c: Compiler, env: Env, table: seq<Token>, inserts: seq<Clause>)
    ensures var o := RemainingRows(c, env, table, inserts);
      && Excess(o) >= 0
      && (c.dialect.Oracle? && Holes(table) != [] && HasRow(inserts) ==> Excess(o) > 0)
      && (!c.dialect.Oracle? || Holes(table) == [] || !HasRow(inserts) ==> Aligned(o))
  {
    hide Aligned, Settled, Holes, Excess, RowValues, InsertColumns;
    if inserts == [] {
      Wordless([Sym("SELECT 1 FROM DUAL")]);
      NothingStands();
      ExcessOfAligned(RemainingRows(c, env, table, inserts));
    } else {
      RemainingStands(c, env, table, inserts[1..]);
      var rest := RemainingRows(c, env, table, inserts[1..]);
      match inserts[0].body
      case InsertRow(columns, values, _) =>
        RowValuesAligned(env, values);
        RowThenRest(c, table, columns, RowValues(env, values), rest, HasRow(inserts[1..]));
      case _ =>
        Wordless([Fault(NoInsert)]);
        ExcessOfAligned(Text([Fault(NoInsert)]));
        ExcessCat(Text([Fault(NoInsert)]), rest);
        if Aligned(rest) { AlignedCat(Text([Fault(NoInsert)]), rest); }
    }
  }

  lemma {:induction false} SetPartsAligned(env: Env, columns: seq<string>, values: seq<Value>)
    ensures AllAligned(SetParts(env, columns, values))
    decreases columns
  {
    if columns != [] {
      SetPartsAligned(env, columns[1..], if values == [] then [] else values[1..]);
      if values == [] {
        Wordless([Ident(columns[0]), Sym("="), Fault(NoValue)]);
      } else {
        ParameterAligned(env, values[0]);
        TextThen([Ident(columns[0]), Sym("=")], Parameter(env, values[0]));
      }
    }
  }

  lemma {:induction false} WhereStands(c: Compiler, env: Env, cs: seq<Clause>)
    requires Built(cs)
    ensures var o := WhereSection(c, env, cs);
      Settled(o) && (Aligned(o) <==> BalancedClauses(c, Chosen(c, cs, Where)))
  {
    SectionClausesStand(c, env, cs, Where);
    SectionStands("WHERE", Chosen(c, cs, Where), EmitClauses(c, env, Chosen(c, cs, Where)));
  }

  lemma {:induction false} IncrementAligned(column: string, amount: int)
    ensures Aligned(IncrementOut(column, amount))
  {
    var n := if amount < 0 then Int64(-amount) else amount;
    BindAligned(n);
    TextThen([Ident(column), Sym("="), Ident(column), Sym(if amount < 0 then "-" else "+")], Bind(n));
  }

  lemma {:induction false} NoUpdateStands(args: seq<Value>)
    ensures var o := Out([Fault(NoUpdate)], args); Settled(o) && (Aligned(o) <==> args == [])
  {
    HolesOfOne(Fault(NoUpdate));
  }

  lemma {:induction false} UpdateStands(c: Compiler, env: Env, cs: seq<Clause>)
    requires Built(cs)
    ensures var o := EmitUpdate(c, env, cs); Settled(o) && (Aligned(o) <==> BalancedWrite(c, MethodUpdate, cs))
  {
    hide Settled, Aligned, IncrementOut, WhereSection;
    var table := WriteTable(c, cs);
    TargetStands(c, cs);
    WhereStands(c, env, cs);
    var cl := One(cs, Update, c.Engine());
    if cl.Some? && (cl.value.body.Increment? || cl.value.body.UpdateSet?) {
      SetAligned(env, cl.value.body);
      UpdateChain(table, SetSection(env, cl.value.body), WhereSection(c, env, cs));
    } else {
      BuiltUpdate(c, cs);
      NoUpdateStands(table.args);
    }
  }

  lemma {:induction false} SetAligned(env: Env, body: Body)
    requires body.Increment? || body.UpdateSet?
    ensures Aligned(SetSection(env, body))
  {
    match body
    case Increment(column, amount) => IncrementAligned(column, amount);
    case UpdateSet(columns, values) =>
      SetPartsAligned(env, columns, values);
      AllAlignedSettled(SetParts(env, columns, values));
      JoinedStands(SetParts(env, columns, values), ",");
  }

  lemma {:induction false} BuiltUpdate(c: Compiler, cs: seq<Clause>)
    requires Built(cs)
    ensures var cl := One(cs, Update, c.Engine());
      cl.Some? ==> cl.value.body.Increment? || cl.value.body.UpdateSet?
  {
    var cl := One(cs, Update, c.Engine());
    if cl.Some? {
      var i :| 0 <= i < |cs| && cs[i] == cl.value;
      assert BuiltClause(cs[i]);
    }
  }

  lemma {:induction false} AllAlignedSettled(parts: seq<Out>)
    requires AllAligned(parts)
    ensures AllSettled(parts)
  {
  }

  lemma {:induction false} UpdateChain(table: Out, set': Out, where': Out)
    requires Settled(table) && Aligned(set') && Settled(where')
    ensures var o := Cat(Word("UPDATE"), Cat(table, Cat(Word("SET"), Cat(set', where'))));
      Settled(o) && (Aligned(o) <==> Aligned(table) && Aligned(where'))
  {
    SettledCat(set', where');
    TextThen([Sym("SET")], Cat(set', where'));
    SettledCat(table, Cat(Word("SET"), Cat(set', where')));
    TextThen([Sym("UPDATE")], Cat(table, Cat(Word("SET"), Cat(set', where'))));
  }

  lemma {:induction false} UnfilledSpreads(a: Out, b: Out)
    requires Unfilled in Holes(a.sql) || Unfilled in Holes(b.sql)
    ensures Unfilled in Holes(Cat(a, b).sql)
  {
    HolesConcat(a.sql, b.sql);
  }

  /** A target without bindings that is not balanced has a placeholder for
      nothing. */
  lemma {:induction false} BareTarget(c: Compiler, cs: seq<Clause>)
    requires Built(cs) && (TargetRaw(c, cs).Some? ==> TargetRaw(c, cs).value.bindings == [])
    ensures var o := WriteTable(c, cs);
      if BalancedTarget(c, cs) then Holes(o.sql) == [] else Unfilled in Holes(o.sql)
  {
    TargetStands(c, cs);
    assert WriteTable(c, cs).args == [];
  }

  /** The chain of an insert around its values and its tail. */
  lemma {:induction false} InsertChain(start: seq<Token>, table: Out, columns: seq<Token>, values: Out, last: Out)
    requires Holeless(start) && Holeless(columns) && Settled(table) && Settled(values)
    ensures var o := Cat(Text(start), Cat(table, Cat(Text(columns), Cat(values, last))));
      && (Settled(last) ==> Settled(o) && (Aligned(o) <==> Aligned(table) && Aligned(values) && Aligned(last)))
      && (Unfilled in Holes(table.sql) ==> Unfilled in Holes(o.sql))
      && Excess(o) == Excess(table) + Excess(values) + Excess(last)
  {
    hide Settled, Aligned, Excess;
    var a := Cat(values, last);
    var b := Cat(Text(columns), a);
    var d := Cat(table, b);
    Wordless(start);
    Wordless(columns);
    if Settled(last) {
      SettledCat(values, last);
      TextThen(columns, a);
      SettledCat(table, b);
      TextThen(start, d);
    }
    if Unfilled in Holes(table.sql) {
      UnfilledSpreads(table, b);
      UnfilledSpreads(Text(start), d);
    }
    ExcessCat(values, last);
    ExcessCat(Text(columns), a);
    ExcessCat(table, b);
    ExcessCat(Text(start), d);
    ExcessOfAligned(Text(start));
    ExcessOfAligned(Text(columns));
  }

  lemma {:induction false} UnfilledBreaks(o: Out)
    requires Unfilled in Holes(o.sql)
    ensures Settled(o) && !Aligned(o)
  {
  }

  lemma {:induction false} TargetHoles(c: Compiler, cs: seq<Clause>)
    requires Built(cs) && BalancedTarget(c, cs) && TargetRaw(c, cs).Some? && TargetRaw(c, cs).value.bindings != []
    ensures Holes(WriteTable(c, cs).sql) != []
  {
    TargetStands(c, cs);
  }

  /** An insert is aligned exactly when it is balanced, unless it repeats the
      bindings of its target: then it never is. */
  lemma {:induction false} InsertStands(c: Compiler, env: Env, cs: seq<Clause>)
    requires Built(cs)
    ensures var o := EmitInsert(c, env, cs);
      if RepeatsBindings(c, MethodInsert, cs) then BalancedWrite(c, MethodInsert, cs) ==> Excess(o) > 0
      else Settled(o) && (Aligned(o) <==> BalancedWrite(c, MethodInsert, cs))
  {
    hide Settled, Aligned, Excess, ConflictTail, InsertColumns, InsertStart, BalancedTarget, WriteTable;
    var table := WriteTable(c, cs);
    var inserts := Components(cs, Insert, c.Engine());
    TargetStands(c, cs);
    if inserts == [] {
      InsertNothing(table);
    } else if inserts[0].body.InsertQuery? {
      InsertQueryStands(c, env, cs);
    } else if inserts[0].body.InsertRow? {
      InsertRowsStand(c, env, cs);
    } else {
      InsertNothing(table);
    }
  }

  lemma {:induction false} InsertNothing(table: Out)
    requires Settled(table)
    ensures var o := Cat(table, Text([Fault(NoInsert)])); Settled(o) && (Aligned(o) <==> Aligned(table))
  {
    Wordless([Fault(NoInsert)]);
    SettledCat(table, Text([Fault(NoInsert)]));
  }

  lemma {:induction false} BuiltSource(cl: Clause)
    requires BuiltClause(cl) && cl.body.InsertQuery?
    ensures Built(cl.body.query.clauses)
  {
  }

  lemma {:induction false} InsertQueryStands(c: Compiler, env: Env, cs: seq<Clause>)
    requires Built(cs)
    requires var inserts := Components(cs, Insert, c.Engine()); inserts != [] && inserts[0].body.InsertQuery?
    ensures var o := EmitInsert(c, env, cs);
      && Settled(o)
      && (Aligned(o) <==> BalancedTarget(c, cs) && BalancedQuery(c, Components(cs, Insert, c.Engine())[0].body.query))
  {
    hide Settled, Aligned, Excess, ConflictTail, InsertColumns, InsertStart, BalancedTarget, WriteTable, BalancedQuery, EmitSelect;
    var inserts := Components(cs, Insert, c.Engine());
    var InsertQuery(columns, q) := inserts[0].body;
    TargetStands(c, cs);
    TailAligned(c, cs);
    AlignedIsSettled(Text(ConflictTail(c, cs)));
    BuiltChosen(c, cs, Insert);
    BuiltSource(inserts[0]);
    hide Components, Built, BuiltClause, Chosen;
    SelectStands(c, env, q);
    ColumnsHoleless(columns);
    StartHoleless(c, cs, false);
    InsertChain([InsertStart(c, cs, false)], WriteTable(c, cs), InsertColumns(columns), EmitSelect(c, env, q),
                Text(ConflictTail(c, cs)));
  }

  lemma {:induction false} StartHoleless(c: Compiler, cs: seq<Clause>, multi: bool)
    ensures Holeless([InsertStart(c, cs, multi)])
  {
  }

  lemma {:induction false} InsertRowsStand(c: Compiler, env: Env, cs: seq<Clause>)
    requires Built(cs)
    requires var inserts := Components(cs, Insert, c.Engine()); inserts != [] && inserts[0].body.InsertRow?
    ensures var o := EmitInsert(c, env, cs);
      if RepeatsBindings(c, MethodInsert, cs) then BalancedTarget(c, cs) ==> Excess(o) > 0
      else Settled(o) && (Aligned(o) <==> BalancedTarget(c, cs))
  {
    hide Settled, Aligned, Excess, ConflictTail, InsertColumns, InsertStart, BalancedTarget, WriteTable, Holes;
    hide RowValues, RemainingRows, LastIdTail, TargetRaw;
    var table := WriteTable(c, cs);
    var tail := Text(ConflictTail(c, cs));
    var inserts := Components(cs, Insert, c.Engine());
    var multi := |inserts| > 1;
    var InsertRow(columns, values, returnId) := inserts[0].body;
    var rows := RemainingRows(c, env, table.sql, inserts[1..]);
    var end := Text(LastIdTail(c, returnId));
    var last := if multi then Cat(rows, tail) else Cat(tail, end);
    TargetStands(c, cs);
    TailAligned(c, cs);
    RowValuesAligned(env, values);
    ColumnsHoleless(columns);
    StartHoleless(c, cs, multi);
    LastIdHoleless(c, returnId);
    Wordless(LastIdTail(c, returnId));
    AlignedCat(tail, end);
    RemainingStands(c, env, table.sql, inserts[1..]);
    ExcessOfAligned(tail);
    ExcessOfAligned(RowValues(env, values));
    ExcessCat(rows, tail);
    if Aligned(rows) { AlignedCat(rows, tail); }
    AlignedIsSettled(last);
    InsertChain([InsertStart(c, cs, multi)], table, InsertColumns(columns) + [Sym("VALUES")], RowValues(env, values), last);
    if !(TargetRaw(c, cs).Some? && TargetRaw(c, cs).value.bindings != []) {
      BareTarget(c, cs);
      if !BalancedTarget(c, cs) { UnfilledBreaks(EmitInsert(c, env, cs)); }
    } else if RepeatsBindings(c, MethodInsert, cs) && BalancedTarget(c, cs) {
      TargetHoles(c, cs);
      ExcessOfAligned(table);
    }
  }

  lemma {:induction false} LastIdHoleless(c: Compiler, returnId: bool)
    ensures Holeless(LastIdTail(c, returnId))
  {
  }

  /** What a delete prints before its WHERE section. */
  lemma {:induction false} DeleteChain(target: seq<Token>, table: Out, joins: Out, where': Out)
    requires Settled(table) && Settled(joins) && Settled(where')
    ensures var o := Cat(Cat(Text([Sym("DELETE")] + target + [Sym("FROM")]), Cat(table, joins)), where');
      && (Holes(target) == [] ==> Settled(o) && (Aligned(o) <==> Aligned(table) && Aligned(joins) && Aligned(where')))
      && (Unfilled in Holes(table.sql) ==> Unfilled in Holes(o.sql))
      && Excess(o) == |Holes(target)| + Excess(table) + Excess(joins) + Excess(where')
  {
    var head := Text([Sym("DELETE")] + target + [Sym("FROM")]);
    var body := Cat(table, joins);
    Around([Sym("DELETE")], Text(target), [Sym("FROM")]);
    assert Excess(head) == |Holes(target)| && (Aligned(head) <==> Holes(target) == []);
    hide Settled, Aligned, Excess;
    SettledCat(table, joins);
    ExcessCat(table, joins);
    ExcessCat(head, body);
    ExcessCat(Cat(head, body), where');
    if Holes(target) == [] {
      AlignedIsSettled(head);
      SettledCat(head, body);
      SettledCat(Cat(head, body), where');
    }
    if Unfilled in Holes(table.sql) {
      UnfilledSpreads(table, joins);
      UnfilledSpreads(head, body);
      UnfilledSpreads(Cat(head, body), where');
    }
  }

  lemma {:induction false} DeleteStands(c: Compiler, env: Env, cs: seq<Clause>)
    requires Built(cs)
    ensures var o := EmitDelete(c, env, cs);
      if RepeatsBindings(c, MethodDelete, cs) then BalancedWrite(c, MethodDelete, cs) ==> Excess(o) > 0
      else Settled(o) && (Aligned(o) <==> BalancedWrite(c, MethodDelete, cs))
  {
    hide Settled, Aligned, Excess, Holes, WriteTable, JoinsSection, WhereSection, BalancedTarget, BalancedClauses;
    var table := WriteTable(c, cs);
    var joins := JoinsSection(c, env, cs);
    var where' := WhereSection(c, env, cs);
    TargetStands(c, cs);
    WhereStands(c, env, cs);
    JoinsStand(c, env, cs);
    if joins.sql == [] {
      TextThen([Sym("DELETE FROM")], table);
      SettledCat(Cat(Word("DELETE FROM"), table), joins);
      SettledCat(Cat(Cat(Word("DELETE FROM"), table), joins), where');
    } else {
      var alias := TargetAlias(c, cs);
      var target := if alias != "" then [Quoted(alias)] else table.sql;
      HolesOfOne(Quoted(alias));
      DeleteChain(target, table, joins, where');
      if !(TargetRaw(c, cs).Some? && TargetRaw(c, cs).value.bindings != []) {
        BareTarget(c, cs);
        if !BalancedTarget(c, cs) { UnfilledBreaks(EmitDelete(c, env, cs)); }
      } else if RepeatsBindings(c, MethodDelete, cs) && BalancedWrite(c, MethodDelete, cs) {
        TargetHoles(c, cs);
        ExcessOfAligned(table);
        ExcessOfAligned(joins);
        ExcessOfAligned(where');
      }
    }
  }

  lemma {:induction false} JoinsStand(c: Compiler, env: Env, cs: seq<Clause>)
    requires Built(cs)
    ensures var o := JoinsSection(c, env, cs);
      && Settled(o) && (Aligned(o) <==> BalancedClauses(c, Chosen(c, cs, Joins)))
      && (o.sql == [] <==> Chosen(c, cs, Joins) == [])
  {
    SectionClausesStand(c, env, cs, Joins);
    JoinedStands(EmitClauses(c, env, Chosen(c, cs, Joins)), "");
    JoinsPrint(c, env, cs);
  }

  /** A join always prints its kind. */
  lemma {:induction false} JoinsPrint(c: Compiler, env: Env, cs: seq<Clause>)
    requires Built(cs)
    ensures JoinsSection(c, env, cs).sql == [] <==> Chosen(c, cs, Joins) == []
  {
    var chosen := Chosen(c, cs, Joins);
    BuiltChosen(c, cs, Joins);
    if chosen != [] {
      assert BuiltClause(chosen[0]) && Tag(chosen[0]) == Joins;
      var first := EmitClause(c, env, chosen[0]);
      assert first.sql != [];
      assert EmitClauses(c, env, chosen)[0] == first;
    }
  }

  // ----- the statement ------------------------------------------------------------------------

  lemma {:induction false} WithStands(c: Compiler, out: Out, cs: seq<Clause>)
    requires Built(cs)
    ensures var o := WithCtes(c, out, cs); var ctes := C.Find(c.Engine(), {}, cs).ctes;
      && (Settled(out) ==> Settled(o) && (Aligned(o) <==> Aligned(out) && BalancedClauses(c, ctes)))
      && (BalancedClauses(c, ctes) ==> Excess(o) == Excess(out))
  {
    var ctes := C.Find(c.Engine(), {}, cs).ctes;
    BuiltFound(c.Engine(), cs);
    if ctes != [] {
      CtesTagged(c.Engine(), cs);
      ClausesStand(c, map[], ctes, Cte);
      var list := Joined(EmitClauses(c, map[], ctes), ",");
      JoinedStands(EmitClauses(c, map[], ctes), ",");
      Wordless([Sym("WITH")]);
      if Settled(out) {
        SettledCat(list, out);
        SettledCat(Word("WITH"), Cat(list, out));
      }
      ExcessCat(list, out);
      ExcessCat(Word("WITH"), Cat(list, out));
    }
  }

  lemma {:induction false} CtesTagged(engine: string, cs: seq<Clause>)
    ensures forall cl <- C.Find(engine, {}, cs).ctes :: Tag(cl) == Cte
  {
    C.FindWithin(engine, {}, cs);
    C.AllTagged(engine, cs);
  }

  lemma {:induction false} WriteStands(c: Compiler, env: Env, verb: Method, cs: seq<Clause>)
    requires Built(cs)
    ensures var o := EmitWrite(c, env, verb, cs);
      if RepeatsBindings(c, verb, cs) then BalancedWrite(c, verb, cs) ==> Excess(o) > 0
      else Settled(o) && (Aligned(o) <==> BalancedWrite(c, verb, cs))
  {
    match verb
    case MethodInsert => InsertStands(c, env, cs);
    case MethodUpdate => UpdateStands(c, env, cs);
    case MethodDelete => DeleteStands(c, env, cs);
    case MethodSelect => NothingStands();
  }

  /** The main result.  For every query the builder can make and every dialect, the
      placeholders of the whole statement stand for exactly its arguments if and
      only if every raw expression and value table that reaches the output is
      balanced; the exception is a write that prints its target more than once
      while the target's bindings are bound once. */
  lemma {:induction false} StatementAligned(c: Compiler, q: Query)
    requires Built(q.clauses)
    ensures !RepeatsBindings(c, q.verb, q.clauses) ==> (Aligned(Emitted(c, q)) <==> BalancedStatement(c, q))
  {
    if q.verb == MethodSelect {
      var compiled := TransformAggregate(q, c.Engine());
      BuiltTransform(q, c.Engine());
      QueryStands(c, map[], compiled);
      WithStands(c, EmitQuery(c, map[], compiled), compiled.clauses);
      CommentedStands(WithCtes(c, EmitQuery(c, map[], compiled), compiled.clauses), q.comment);
    } else if !RepeatsBindings(c, q.verb, q.clauses) {
      var out := EmitWrite(c, q.variables, q.verb, q.clauses);
      WriteStands(c, q.variables, q.verb, q.clauses);
      WithStands(c, out, q.clauses);
      CommentedStands(WithCtes(c, out, q.clauses), q.comment);
    }
  }

  /** A write that repeats the bindings of its target has more placeholders than
      arguments, however balanced its parts are. */
  lemma {:induction false} RepeatedBindingsMisalign(c: Compiler, q: Query)
    requires Built(q.clauses) && q.verb != MethodSelect
    requires RepeatsBindings(c, q.verb, q.clauses) && BalancedStatement(c, q)
    ensures |Holes(Emitted(c, q).sql)| > |Emitted(c, q).args|
  {
    hide Holes, Built, BalancedWrite, RepeatsBindings, EmitWrite, WithCtes, BalancedClauses;
    var out := EmitWrite(c, q.variables, q.verb, q.clauses);
    var with := WithCtes(c, out, q.clauses);
    WriteStands(c, q.variables, q.verb, q.clauses);
    WithStands(c, out, q.clauses);
    CommentedExcess(with, q.comment);
  }

  lemma {:induction false} CommentedExcess(o: Out, comment: string)
    ensures Excess(Commented(o, comment)) == Excess(o)
  {
    Around([Remark(comment)], o, []);
    assert [Remark(comment)] + o.sql + [] == [Remark(comment)] + o.sql;
  }
}
