/** Writes that print their raw target more than once while its bindings are bound
    once: when their statements are aligned all the same. */
module RepeatedTargets {
  import opened Ast
  import opened Dialects
  import opened Emit
  import opened Placeholders
  import opened Alignment
  import opened Statements
  import opened StatementAlignment
  import C = Ctes
  import S = Strings

  // ----- the condition -------------------------------------------------------------------

  /** The slots a raw target asks for each time it is printed: one for every "?",
      filled from its bindings as far as they go. */
  function TargetSlots(raw: Raw): seq<Slot> {
    match raw.expression
    case Written(text) =>
      seq(S.Placeholders(text), i requires 0 <= i => if i < |raw.bindings| then Filled(raw.bindings[i]) else Unfilled)
    case Printed(tokens) => Holes(tokens)
  }

  /** The values that the rows after the first bind. */
  function RowsBind(env: Env, inserts: seq<Clause>): seq<Value> {
    if inserts == [] then []
    else
      (if inserts[0].body.InsertRow? then RowValues(env, inserts[0].body.values).args else [])
      + RowsBind(env, inserts[1..])
  }

  /** What the same rows ask for when each of them prints the target again. */
  function RowsAsk(target: seq<Slot>, env: Env, inserts: seq<Clause>): seq<Slot> {
    if inserts == [] then []
    else
      (if inserts[0].body.InsertRow? then target + Slots(RowValues(env, inserts[0].body.values).args) else [])
      + RowsAsk(target, env, inserts[1..])
  }

  /** The list behind WITH. */
  function WithList(c: Compiler, cs: seq<Clause>): Out {
    Joined(EmitClauses(c, map[], C.Find(c.Engine(), {}, cs).ctes), ",")
  }

  /** What the printed repetitions ask for is what the bindings, bound once, give:
      decided by the target and the rows alone. */
  predicate RepetitionFits(c: Compiler, verb: Method, env: Env, cs: seq<Clause>)
    requires TargetRaw(c, cs).Some?
  {
    var raw := TargetRaw(c, cs).value;
    match verb
    case MethodInsert =>
      var inserts := Components(cs, Insert, c.Engine());
      RowsAsk(TargetSlots(raw), env, inserts) == Slots(raw.bindings + RowsBind(env, inserts))
    case _ => TargetSlots(raw) + TargetSlots(raw) == Slots(raw.bindings)
  }

  /** Everything around the target is balanced. */
  predicate BalancedElsewhere(c: Compiler, verb: Method, cs: seq<Clause>) {
    && BalancedClauses(c, C.Find(c.Engine(), {}, cs).ctes)
    && (verb == MethodDelete ==>
          BalancedClauses(c, Chosen(c, cs, Joins)) && BalancedClauses(c, Chosen(c, cs, Where)))
  }

  /** For a delete the target's bindings must be the values of its placeholders
      written twice. */
  lemma {:induction false} DeleteFitsTwice(text: string, bindings: seq<Value>)
    ensures var slots := TargetSlots(Raw(Written(text), bindings)); var n := S.Placeholders(text);
      slots + slots == Slots(bindings) <==> |bindings| == 2 * n && bindings[..n] == bindings[n..]
  {
    var slots, n := TargetSlots(Raw(Written(text), bindings)), S.Placeholders(text);
    if slots + slots == Slots(bindings) {
      assert |slots + slots| == |Slots(bindings)|;
      forall i | 0 <= i < n ensures bindings[i] == bindings[n + i] {
        assert (slots + slots)[i] == Slots(bindings)[i] && (slots + slots)[n + i] == Slots(bindings)[n + i];
      }
    }
  }

  // ----- the printed repetitions ------------------------------------------------------------

  lemma {:induction false} TargetAsks(c: Compiler, cs: seq<Clause>)
    requires TargetRaw(c, cs).Some?
    ensures WriteTable(c, cs).args == TargetRaw(c, cs).value.bindings
    ensures Holes(WriteTable(c, cs).sql) == TargetSlots(TargetRaw(c, cs).value)
  {
    var raw := TargetRaw(c, cs).value;
    var tokens := ExpressionTokens(c, raw);
    HolesOfOne(Inner(tokens));
    if raw.expression.Written? {
      S.WrapKeepsPlaceholders(c.Quotes(), raw.expression.text);
      RawTokensHoles(S.WrapIdentifiers(c.Quotes(), raw.expression.text), raw.bindings);
    }
  }

  lemma {:induction false} HolesOfCat(a: Out, b: Out)
    ensures Holes(Cat(a, b).sql) == Holes(a.sql) + Holes(b.sql)
  {
    HolesConcat(a.sql, b.sql);
  }

  lemma {:induction false} RowHoles(env: Env, values: seq<Value>)
    ensures Holes(RowValues(env, values).sql) == Slots(RowValues(env, values).args)
  {
    RowValuesAligned(env, values);
  }

  lemma {:induction false} FixedHoles(ts: seq<Token>)
    requires Holeless(ts)
    ensures Holes(Text(ts).sql) == []
  {
    HolelessHasNoHoles(ts);
  }

  lemma {:induction false} RepetitionHoles(table: seq<Token>, columns: seq<string>)
    ensures Holes(Text([Sym("INTO")] + table + InsertColumns(columns) + [Sym("VALUES")]).sql) == Holes(table)
  {
    ColumnsHoleless(columns);
    var after := InsertColumns(columns) + [Sym("VALUES")];
    Around([Sym("INTO")], Text(table), after);
    assert [Sym("INTO")] + table + after == [Sym("INTO")] + table + InsertColumns(columns) + [Sym("VALUES")];
  }

  lemma {:induction false} RowAsks(table: seq<Token>, columns: seq<string>, row: Out, rest: Out)
    ensures var o := Cat(Cat(Text([Sym("INTO")] + table + InsertColumns(columns) + [Sym("VALUES")]), row), rest);
      o.args == row.args + rest.args && Holes(o.sql) == Holes(table) + Holes(row.sql) + Holes(rest.sql)
  {
    hide Holes, InsertColumns;
    var head := Text([Sym("INTO")] + table + InsertColumns(columns) + [Sym("VALUES")]);
    RepetitionHoles(table, columns);
    HolesOfCat(head, row);
    HolesOfCat(Cat(head, row), rest);
  }

  lemma {:induction false} RemainingAsk(c: Compiler, env: Env, table: seq<Token>, inserts: seq<Clause>)
    requires c.dialect.Oracle?
    ensures var o := RemainingRows(c, env, table, inserts);
      o.args == RowsBind(env, inserts) && Holes(o.sql) == RowsAsk(Holes(table), env, inserts)
  {
    hide Holes, RowValues, InsertColumns, Slots;
    if inserts == [] {
      FixedHoles([Sym("SELECT 1 FROM DUAL")]);
    } else {
      RemainingAsk(c, env, table, inserts[1..]);
      var rest := RemainingRows(c, env, table, inserts[1..]);
      match inserts[0].body
      case InsertRow(columns, values, _) => RowAsks(table, columns, RowValues(env, values), rest); RowHoles(env, values);
      case _ =>
        FixedHoles([Fault(NoInsert)]);
        HolesOfCat(Text([Fault(NoInsert)]), rest);
    }
  }

  /** The placeholders and arguments of an insert that repeats its target. */
  lemma {:induction false} InsertAsks(c: Compiler, env: Env, cs: seq<Clause>)
    requires RepeatsBindings(c, MethodInsert, cs)
    ensures var o := EmitInsert(c, env, cs); var raw := TargetRaw(c, cs).value;
      var inserts := Components(cs, Insert, c.Engine());
      && o.args == raw.bindings + RowsBind(env, inserts)
      && Holes(o.sql) == RowsAsk(TargetSlots(raw), env, inserts)
  {
    hide Holes, RowValues, InsertColumns, Slots, ConflictTail, InsertStart, WriteTable, RemainingRows, TargetSlots, Components;
    var inserts := Components(cs, Insert, c.Engine());
    var InsertRow(columns, values, _) := inserts[0].body;
    var table := WriteTable(c, cs);
    var row := RowValues(env, values);
    var rest := RemainingRows(c, env, table.sql, inserts[1..]);
    var tail := Text(ConflictTail(c, cs));
    var names := InsertColumns(columns) + [Sym("VALUES")];
    TargetAsks(c, cs);
    RemainingAsk(c, env, table.sql, inserts[1..]);
    RowHoles(env, values);
    TailHoles(c, cs);
    ColumnsHoleless(columns);
    StartHoleless(c, cs, true);
    FixedHoles([InsertStart(c, cs, true)]);
    FixedHoles(names);
    HolesOfCat(rest, tail);
    HolesOfCat(row, Cat(rest, tail));
    HolesOfCat(Text(names), Cat(row, Cat(rest, tail)));
    HolesOfCat(table, Cat(Text(names), Cat(row, Cat(rest, tail))));
    HolesOfCat(Text([InsertStart(c, cs, true)]), Cat(table, Cat(Text(names), Cat(row, Cat(rest, tail)))));
  }

  lemma {:induction false} TailHoles(c: Compiler, cs: seq<Clause>)
    ensures Holes(Text(ConflictTail(c, cs)).sql) == []
  {
    TailAligned(c, cs);
  }

  /** The placeholders and arguments of a delete that repeats its target. */
  lemma {:induction false} DeleteAsks(c: Compiler, env: Env, cs: seq<Clause>)
    requires Built(cs) && RepeatsBindings(c, MethodDelete, cs)
    ensures var o := EmitDelete(c, env, cs); var raw := TargetRaw(c, cs).value;
      var after := Cat(JoinsSection(c, env, cs), WhereSection(c, env, cs));
      && o.args == raw.bindings + after.args
      && Holes(o.sql) == TargetSlots(raw) + TargetSlots(raw) + Holes(after.sql)
  {
    hide Holes, WriteTable, JoinsSection, WhereSection, TargetSlots, TargetAlias, Chosen, Built;
    var joins, where' := JoinsSection(c, env, cs), WhereSection(c, env, cs);
    JoinsPrint(c, env, cs);
    TargetAsks(c, cs);
    PartsAsk(WriteTable(c, cs), joins, where');
  }

  lemma {:induction false} PartsAsk(table: Out, joins: Out, where': Out)
    ensures var o := Cat(Cat(Text([Sym("DELETE")] + table.sql + [Sym("FROM")]), Cat(table, joins)), where');
      && o.args == table.args + Cat(joins, where').args
      && Holes(o.sql) == Holes(table.sql) + Holes(table.sql) + Holes(Cat(joins, where').sql)
  {
    hide Holes;
    var head := Text([Sym("DELETE")] + table.sql + [Sym("FROM")]);
    Around([Sym("DELETE")], Text(table.sql), [Sym("FROM")]);
    HolesOfCat(table, joins);
    HolesOfCat(head, Cat(table, joins));
    HolesOfCat(Cat(head, Cat(table, joins)), where');
    HolesOfCat(joins, where');
  }

  // ----- the statement --------------------------------------------------------------------------

  /** An aligned fragment in front, or behind, changes nothing. */
  lemma {:induction false} AlignedBefore(a: Out, b: Out)
    requires Aligned(a)
    ensures Aligned(Cat(a, b)) <==> Aligned(b)
  {
    HolesConcat(a.sql, b.sql);
    SlotsConcat(a.args, b.args);
    SamePrefix(Holes(a.sql), Holes(b.sql), Slots(b.args));
  }

  lemma {:induction false} SamePrefix<T>(a: seq<T>, b: seq<T>, d: seq<T>)
    ensures a + b == a + d <==> b == d
  {
    assert (a + b)[|a|..] == b && (a + d)[|a|..] == d;
  }

  lemma {:induction false} SameSuffix<T>(a: seq<T>, b: seq<T>, d: seq<T>)
    ensures b + a == d + a <==> b == d
  {
    if b + a == d + a {
      assert |b| == |d|;
      assert (b + a)[..|b|] == b && (d + a)[..|d|] == d;
    }
  }

  lemma {:induction false} WithBefore(c: Compiler, out: Out, cs: seq<Clause>)
    requires Built(cs) && BalancedClauses(c, C.Find(c.Engine(), {}, cs).ctes)
    ensures Aligned(WithCtes(c, out, cs)) <==> Aligned(out)
  {
    hide Aligned;
    var ctes := C.Find(c.Engine(), {}, cs).ctes;
    if ctes != [] {
      BuiltFound(c.Engine(), cs);
      CtesTagged(c.Engine(), cs);
      ClausesStand(c, map[], ctes, Cte);
      JoinedStands(EmitClauses(c, map[], ctes), ",");
      Wordless([Sym("WITH")]);
      AlignedBefore(Joined(EmitClauses(c, map[], ctes), ","), out);
      AlignedBefore(Word("WITH"), Cat(Joined(EmitClauses(c, map[], ctes), ","), out));
    }
  }

  lemma {:induction false} CommentBefore(o: Out, comment: string)
    ensures Aligned(Commented(o, comment)) <==> Aligned(o)
  {
    Around([Remark(comment)], o, []);
    assert [Remark(comment)] + o.sql + [] == [Remark(comment)] + o.sql;
  }

  /** When everything around the target is balanced, a write that repeats its
      bound target is aligned exactly when its bindings happen to repeat the
      values in the order in which the placeholders come. */
  lemma {:induction false} RepeatedTargetAligned(c: Compiler, q: Query)
    requires Built(q.clauses) && RepeatsBindings(c, q.verb, q.clauses) && BalancedElsewhere(c, q.verb, q.clauses)
    ensures Aligned(Emitted(c, q)) <==> RepetitionFits(c, q.verb, q.variables, q.clauses)
  {
    hide Aligned, Built, BalancedClauses, TargetSlots;
    var out := EmitWrite(c, q.variables, q.verb, q.clauses);
    WithBefore(c, out, q.clauses);
    CommentBefore(WithCtes(c, out, q.clauses), q.comment);
    WriteRepeats(c, q.variables, q.verb, q.clauses);
  }

  lemma {:induction false} WriteRepeats(c: Compiler, env: Env, verb: Method, cs: seq<Clause>)
    requires Built(cs) && RepeatsBindings(c, verb, cs) && BalancedElsewhere(c, verb, cs)
    ensures verb != MethodSelect && (Aligned(EmitWrite(c, env, verb, cs)) <==> RepetitionFits(c, verb, env, cs))
  {
    hide Holes, EmitInsert, EmitDelete, TargetSlots, RowsAsk, RowsBind;
    if verb == MethodInsert {
      InsertAsks(c, env, cs);
    } else {
      DeleteRepeats(c, env, cs);
    }
  }

  lemma {:induction false} DeleteRepeats(c: Compiler, env: Env, cs: seq<Clause>)
    requires Built(cs) && RepeatsBindings(c, MethodDelete, cs) && BalancedElsewhere(c, MethodDelete, cs)
    ensures Aligned(EmitDelete(c, env, cs)) <==> RepetitionFits(c, MethodDelete, env, cs)
  {
    hide Holes, Slots, EmitDelete, TargetSlots, JoinsSection, WhereSection, BalancedClauses, Chosen;
    var raw := TargetRaw(c, cs).value;
    var joins, where' := JoinsSection(c, env, cs), WhereSection(c, env, cs);
    DeleteAsks(c, env, cs);
    JoinsStand(c, env, cs);
    WhereStands(c, env, cs);
    AlignedCat(joins, where');
    SlotsConcat(raw.bindings, Cat(joins, where').args);
    SameSuffix(Slots(Cat(joins, where').args), TargetSlots(raw) + TargetSlots(raw), Slots(raw.bindings));
  }

  /** What a statement that repeats its bound target asks for, written out against
      what it binds. */
  ghost predicate RepetitionAligned(c: Compiler, q: Query)
    requires RepeatsBindings(c, q.verb, q.clauses)
  {
    var raw := TargetRaw(c, q.clauses).value;
    var slots := TargetSlots(raw);
    var inserts := Components(q.clauses, Insert, c.Engine());
    var before := WithList(c, q.clauses);
    var after := Cat(JoinsSection(c, q.variables, q.clauses), WhereSection(c, q.variables, q.clauses));
    if q.verb == MethodInsert then
      Holes(before.sql) + RowsAsk(slots, q.variables, inserts) ==
        Slots(before.args + (raw.bindings + RowsBind(q.variables, inserts)))
    else
      Holes(before.sql) + (slots + slots + Holes(after.sql)) == Slots(before.args + (raw.bindings + after.args))
  }

  /** Nothing assumed about the rest. */
  lemma {:induction false} RepeatedTargetExact(c: Compiler, q: Query)
    requires Built(q.clauses) && RepeatsBindings(c, q.verb, q.clauses)
    ensures Aligned(Emitted(c, q)) <==> RepetitionAligned(c, q)
  {
    hide Holes, Slots, Built, TargetSlots, EmitInsert, EmitDelete, JoinsSection, WhereSection, WithList, RowsAsk, RowsBind, Components;
    var out := EmitWrite(c, q.variables, q.verb, q.clauses);
    WithAsks(c, out, q.clauses);
    CommentBefore(WithCtes(c, out, q.clauses), q.comment);
    if q.verb == MethodInsert { InsertAsks(c, q.variables, q.clauses); } else { DeleteAsks(c, q.variables, q.clauses); }
  }

  /** For every query the builder can make and every dialect: when the placeholders of
      the whole statement stand for exactly its arguments. */
  lemma {:induction false} AlignmentIsExact(c: Compiler, q: Query)
    requires Built(q.clauses)
    ensures Aligned(Emitted(c, q)) <==>
      if RepeatsBindings(c, q.verb, q.clauses) then RepetitionAligned(c, q) else BalancedStatement(c, q)
  {
    hide Aligned, Emitted, Built, RepetitionAligned, BalancedStatement, RepeatsBindings;
    if RepeatsBindings(c, q.verb, q.clauses) { RepeatedTargetExact(c, q); } else { StatementAligned(c, q); }
  }

  lemma {:induction false} WithAsks(c: Compiler, out: Out, cs: seq<Clause>)
    ensures var o := WithCtes(c, out, cs); var before := WithList(c, cs);
      o.args == before.args + out.args && Holes(o.sql) == Holes(before.sql) + Holes(out.sql)
  {
    hide Holes, C.Find, EmitClauses;
    FixedHoles([Sym("WITH")]);
    FixedHoles([]);
    HolesOfCat(WithList(c, cs), out);
    HolesOfCat(Word("WITH"), Cat(WithList(c, cs), out));
  }

  // ----- examples ----------------------------------------------------------------------------------

  /** A joined delete from a target "?" bound to the same value twice is aligned;
      bound to it once, it is not. */
  lemma {:induction false} TwiceBoundTarget(c: Compiler, v: Value)
    ensures Aligned(Emitted(c, JoinedDelete("?", [v, v])))
    ensures !Aligned(Emitted(c, JoinedDelete("?", [v])))
  {
    hide Aligned, Emitted, TargetSlots, RepeatsBindings, BalancedElsewhere, Built;
    var twice, once := JoinedDelete("?", [v, v]), JoinedDelete("?", [v]);
    assert "?"[1..] == "" && S.Placeholders("?") == 1;
    JoinedDeleteRepeats(c, "?", [v, v]);
    JoinedDeleteRepeats(c, "?", [v]);
    RepeatedTargetAligned(c, twice);
    RepeatedTargetAligned(c, once);
    DeleteFitsTwice("?", [v, v]);
    DeleteFitsTwice("?", [v]);
  }

  function JoinedDelete(text: string, bindings: seq<Value>): Query {
    EmptyQuery.(verb := MethodDelete,
                clauses := [Clause("", FromRaw(Raw(Written(text), bindings))), Crossed])
  }

  const Crossed := Clause("", Join("CROSS JOIN", [Clause("", FromTable("u"))]))

  lemma {:induction false} JoinedDeleteRepeats(c: Compiler, text: string, bindings: seq<Value>)
    requires bindings != []
    ensures var q := JoinedDelete(text, bindings);
      && Built(q.clauses) && RepeatsBindings(c, MethodDelete, q.clauses) && BalancedElsewhere(c, MethodDelete, q.clauses)
      && TargetRaw(c, q.clauses) == Some(Raw(Written(text), bindings))
  {
    hide Built, BalancedClauses, C.Find, Components, Chosen, One;
    var target := Clause("", FromRaw(Raw(Written(text), bindings)));
    TwoClauses(c, target, Crossed);
    JoinedDeleteBuilt(text, bindings);
    CrossedStands(c);
    NoDefinitions(c, target);
  }

  /** What a target and a join are, section by section. */
  lemma {:induction false} TwoClauses(c: Compiler, target: Clause, join: Clause)
    requires Tag(target) == From && Tag(join) == Joins && target.engine == join.engine == ""
    ensures One([target, join], From, c.Engine()) == Some(target)
    ensures Chosen(c, [target, join], Joins) == [join] && Chosen(c, [target, join], Where) == []
    ensures Components([target, join], Cte, c.Engine()) == []
  {
    var e := c.Engine();
    assert [target, join][1..] == [join] && [join][1..] == [] && [target][1..] == [];
    assert Components([join], From, e) == [] && Components([target, join], From, e) == [target];
    assert Components([join], Joins, e) == [join] && Components([target, join], Joins, e) == [join];
    assert Components([join], Where, e) == [] && Components([join], Cte, e) == [];
    assert FirstScoped([target], "") == Some(target);
  }

  lemma {:induction false} JoinedDeleteBuilt(text: string, bindings: seq<Value>)
    ensures Built(JoinedDelete(text, bindings).clauses)
  {
    var inside := [Clause("", FromTable("u"))];
    assert Built(inside);
    assert inside[0] in inside && Tag(inside[0]) == From;
    assert BuiltClause(Crossed);
    assert BuiltClause(Clause("", FromRaw(Raw(Written(text), bindings))));
  }

  lemma {:induction false} CrossedStands(c: Compiler)
    ensures BalancedClauses(c, [Crossed])
  {
    var inside := [Clause("", FromTable("u"))];
    assert inside[1..] == [] && [Crossed][1..] == [];
    assert Chosen(c, inside, From) == inside;
    assert Chosen(c, inside, Where) == [];
  }

  lemma {:induction false} NoDefinitions(c: Compiler, target: Clause)
    requires target.body.FromRaw?
    ensures C.Find(c.Engine(), {}, [target, Crossed]).ctes == [] && BalancedClauses(c, [])
  {
    hide C.Find, C.FindRest, C.FindLevel;
    var e := c.Engine();
    assert [target, Crossed][1..] == [Crossed] && [Crossed][1..] == [];
    assert Components([Crossed], Cte, e) == [] && Components([target, Crossed], Cte, e) == [];
    C.FindIs(e, {}, [target, Crossed]);
    C.FindEnds(e, {}, []);
    C.FindRestStep(e, {}, [target, Crossed], 0);
    C.FindRestStep(e, {}, [target, Crossed], 1);
    NothingInside(e);
    assert [target, Crossed][0..] == [target, Crossed] && [target, Crossed][2..] == [];
    assert !C.Searched(target, e) && C.Scope(Crossed) == Some([Clause("", FromTable("u"))]);
  }

  lemma {:induction false} NothingInside(e: string)
    ensures C.Find(e, {}, [Clause("", FromTable("u"))]) == C.Found([], {})
  {
    hide C.Find, C.FindRest, C.FindLevel;
    var inside := [Clause("", FromTable("u"))];
    assert inside[1..] == [] && Components(inside, Cte, e) == [];
    C.FindIs(e, {}, inside);
    C.FindEnds(e, {}, []);
    C.FindRestStep(e, {}, inside, 0);
  }
}
