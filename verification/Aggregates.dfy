/** What the aggregate rewrite counts.  Rows are the rows of the FROM and JOIN
    sections, which the rewrite keeps; every row gives each printed predicate a
    truth value and each column a value or null. */
module Aggregates {
  import opened Ast
  import opened Dialects
  import opened Emit
  import opened Statements
  import opened Placeholders
  import opened Conditions
  import FM = FilterMeaning
  import S = Strings
  import T = StatementAlignment

  // ----- rows -----------------------------------------------------------------------------

  /** A row: how it reads predicates, and the value of its columns. */
  datatype Row = Row(reading: Reading, cells: map<string, int>)
  {
    predicate Null(column: string) { column !in cells }

    function Cell(column: string): Option<int> { if column in cells then Some(cells[column]) else None }
  }

  /** A row reads null tests off its cells. */
  ghost predicate Sound(row: Row) {
    && Lawful(row.reading)
    && forall column :: NullTest(row, column) == if row.Null(column) then True else False
  }

  function NullTest(row: Row, column: string): Truth { row.reading([Ident(column), Sym("IS NULL")]) }

  predicate NonNull(row: Row, columns: seq<string>) { forall column <- columns :: !row.Null(column) }

  /** Whether a row passes a printed WHERE section. */
  predicate Passes(row: Row, section: seq<Token>) {
    section != [] ==>
      var p := ParseCondition(section[1..]);
      p.Some? && EvalTerms(row.reading, p.value.value) == True
  }

  /** The WHERE section of a query, as printed. */
  function WhereText(c: Compiler, env: Env, cs: seq<Clause>): seq<Token> {
    WhereSection(c, env, cs).sql
  }

  /** The rows a printed WHERE section lets through. */
  function Passing(rows: seq<Row>, section: seq<Token>): seq<Row> {
    if rows == [] then []
    else (if Passes(rows[0], section) then [rows[0]] else []) + Passing(rows[1..], section)
  }

  function WithValues(rows: seq<Row>, columns: seq<string>): seq<Row> {
    if rows == [] then []
    else (if NonNull(rows[0], columns) then [rows[0]] else []) + WithValues(rows[1..], columns)
  }

  // ----- runs with guards ---------------------------------------------------------------------

  lemma {:induction false} AnyOfConcat(a: seq<seq<Truth>>, b: seq<seq<Truth>>)
    ensures AnyOf(a + b) == Or3(AnyOf(a), AnyOf(b))
  {
    if a == [] {
      assert a + b == b;
    } else {
      assert (a + b)[1..] == a[1..] + b;
      AnyOfConcat(a[1..], b);
    }
  }

  lemma {:induction false} AllOfConcat(a: seq<Truth>, b: seq<Truth>)
    ensures AllOf(a + b) == And3(AllOf(a), AllOf(b))
  {
    if a == [] {
      assert a + b == b;
    } else {
      assert (a + b)[1..] == a[1..] + b;
      AllOfConcat(a[1..], b);
    }
  }

  /** Conditions appended with AND extend the last run only. */
  lemma {:induction false} RunsThenAnd(items: seq<Item>, guards: seq<Truth>)
    requires items != []
    ensures var runs := Runs(items); var last := |runs| - 1;
      Runs(items + FM.Tagged(false, guards)) == runs[..last] + [runs[last] + guards]
  {
    var tagged := FM.Tagged(false, guards);
    var item, rest := items[0], items[1..];
    assert items == [item] + rest && items + tagged == [item] + (rest + tagged);
    RunsCons(item, rest);
    RunsCons(item, rest + tagged);
    hide Runs;
    if rest == [] {
      assert rest + tagged == tagged;
      OneThenAnd(item, guards);
    } else {
      RunsThenAnd(rest, guards);
      assert (rest + tagged)[0] == rest[0];
      if rest[0].or { NewRunThenAnd(item.truth, Runs(rest), guards); } else { JoinedThenAnd(item.truth, Runs(rest), guards); }
    }
  }

  lemma {:induction false} OneThenAnd(item: Item, guards: seq<Truth>)
    ensures Runs([item] + FM.Tagged(false, guards)) == [[item.truth] + guards]
    ensures Runs([item]) == [[item.truth]]
    ensures var runs := Runs([item]); runs[..0] + [runs[0] + guards] == [[item.truth] + guards]
  {
    RunsCons(item, []);
    assert [item] + [] == [item];
    RunsCons(item, FM.Tagged(false, guards));
    if guards == [] {
      assert [item.truth] + guards == [item.truth];
    } else {
      FM.TaggedMeaning(false, guards);
      assert [[item.truth] + guards] + [guards][1..] == [[item.truth] + guards];
    }
  }

  lemma {:induction false} NewRunThenAnd(truth: Truth, more: seq<seq<Truth>>, guards: seq<Truth>)
    requires more != []
    ensures var last := |more| - 1; var runs := [[truth]] + more;
      [[truth]] + (more[..last] + [more[last] + guards]) == runs[..last + 1] + [runs[last + 1] + guards]
  {
  }

  lemma {:induction false} JoinedThenAnd(truth: Truth, more: seq<seq<Truth>>, guards: seq<Truth>)
    requires more != []
    ensures var last := |more| - 1; var more' := more[..last] + [more[last] + guards];
      var runs := [[truth] + more[0]] + more[1..];
      [[truth] + more'[0]] + more'[1..] == runs[..last] + [runs[last] + guards]
  {
    assert [truth] + (more[0] + guards) == ([truth] + more[0]) + guards;
  }

  /** The truth values of the guards of a row. */
  function GuardTruths(row: Row, columns: seq<string>): (truths: seq<Truth>)
    ensures |truths| == |columns|
  {
    if columns == [] then [] else [Not3(NullTest(row, columns[0]))] + GuardTruths(row, columns[1..])
  }

  lemma {:induction false} GuardsSayNonNull(row: Row, columns: seq<string>)
    requires Sound(row)
    ensures AllOf(GuardTruths(row, columns)) == if NonNull(row, columns) then True else False
  {
    if columns != [] {
      GuardsSayNonNull(row, columns[1..]);
      assert columns == [columns[0]] + columns[1..];
      assert NullTest(row, columns[0]) == if row.Null(columns[0]) then True else False;
    }
  }

  /** All runs but the last, and the last. */
  function Earlier(runs: seq<seq<Truth>>): Truth
    requires runs != []
  {
    AnyOf(runs[..|runs| - 1])
  }

  function LastRun(runs: seq<seq<Truth>>): Truth
    requires runs != []
  {
    AllOf(runs[|runs| - 1])
  }

  lemma {:induction false} SplitLast(runs: seq<seq<Truth>>)
    requires runs != []
    ensures AnyOf(runs) == Or3(Earlier(runs), LastRun(runs))
  {
    var last := |runs| - 1;
    assert runs == runs[..last] + [runs[last]];
    AnyOfConcat(runs[..last], [runs[last]]);
    FM.OneRun(runs[last]);
  }

  /** A guarded list holds when an earlier run does, or the last run does and no
      guarded column is null. */
  lemma {:induction false} GuardedTruth(row: Row, items: seq<Item>, columns: seq<string>)
    requires Sound(row) && (items != [] || columns != [])
    ensures AnyOf(Runs(items + FM.Tagged(false, GuardTruths(row, columns)))) == True <==>
      if items == [] then NonNull(row, columns)
      else Earlier(Runs(items)) == True || (LastRun(Runs(items)) == True && NonNull(row, columns))
  {
    var guards := GuardTruths(row, columns);
    GuardsSayNonNull(row, columns);
    if items == [] {
      assert items + FM.Tagged(false, guards) == FM.Tagged(false, guards);
      FM.TaggedMeaning(false, guards);
    } else {
      var runs := Runs(items);
      var last := |runs| - 1;
      RunsThenAnd(items, guards);
      SplitLast(runs[..last] + [runs[last] + guards]);
      assert (runs[..last] + [runs[last] + guards])[..last] == runs[..last];
      AllOfConcat(runs[last], guards);
    }
  }

  // ----- the rewritten WHERE -----------------------------------------------------------------------

  function Guards(q: Query, columns: seq<string>): seq<Clause> { Stamp(q.engineScope, GuardBodies(columns)) }

  lemma {:induction false} AllGuards(c: Compiler, q: Query, columns: seq<string>)
    ensures Components(Guards(q, columns), Where, c.Engine()) == if AppendsVisibly(c, q) then Guards(q, columns) else []
    ensures AreConditions(Guards(q, columns))
  {
    GuardsSeen(c, q, columns);
    forall i | 0 <= i < |columns| ensures BuiltClause(Guards(q, columns)[i]) { }
  }

  lemma {:induction false} GuardsSeen(c: Compiler, q: Query, columns: seq<string>)
    ensures Components(Guards(q, columns), Where, c.Engine()) == if AppendsVisibly(c, q) then Guards(q, columns) else []
  {
    forall cl | cl in Guards(q, columns) ensures Tag(cl) == Where && Visible(cl, c.Engine()) == AppendsVisibly(c, q) {
      var i :| 0 <= i < |columns| && cl == Guards(q, columns)[i];
    }
    hide Guards, AppendsVisibly, Tag, Visible;
    AllOrNone(Guards(q, columns), Where, c.Engine(), AppendsVisibly(c, q));
  }

  lemma {:induction false} AllOrNone(cs: seq<Clause>, of: Component, e: string, visible: bool)
    requires forall cl <- cs :: Tag(cl) == of && Visible(cl, e) == visible
    ensures Components(cs, of, e) == if visible then cs else []
  {
    hide Tag, Visible;
    if cs != [] {
      AllOrNone(cs[1..], of, e, visible);
      assert cs == [cs[0]] + cs[1..];
    }
  }

  lemma {:induction false} GuardsCons(q: Query, columns: seq<string>)
    requires columns != []
    ensures var all := Guards(q, columns);
      && all != [] && all[0] == Clause(q.engineScope, Condition(Where, false, true, IsNull(columns[0])))
      && all[1..] == Guards(q, columns[1..]) && all == [all[0]] + Guards(q, columns[1..])
  {
  }

  lemma {:induction false} GuardItems(c: Compiler, q: Query, env: Env, row: Row, columns: seq<string>)
    ensures Items(c, env, row.reading, Guards(q, columns)) == FM.Tagged(false, GuardTruths(row, columns))
  {
    if columns != [] {
      hide Says, Omitted, Guards, NullTest;
      GuardItems(c, q, env, row, columns[1..]);
      GuardsCons(q, columns);
      GuardSays(c, env, row, Guards(q, columns)[0], columns[0]);
    }
  }

  lemma {:induction false} GuardSays(c: Compiler, env: Env, row: Row, cl: Clause, column: string)
    requires cl.body == Condition(Where, false, true, IsNull(column))
    ensures !Omitted(c, cl) && Says(c, env, row.reading, cl) == Not3(NullTest(row, column))
  {
  }

  /** The where list of the query that a multi-column aggregate counts. */
  lemma {:induction false} InnerWhere(c: Compiler, q: Query, kind: string, columns: seq<string>)
    requires !q.distinct
    ensures Components(InnerQuery(q, kind, columns).clauses, Where, c.Engine())
         == Components(q.clauses, Where, c.Engine()) + (if AppendsVisibly(c, q) then Guards(q, columns) else [])
  {
    var bare := Without(q.clauses, {Limit, Order, Group});
    ComponentsWithout(q.clauses, {Limit, Order, Group}, Where, c.Engine());
    ComponentsConcat(bare, Guards(q, columns), Where, c.Engine());
    AllGuards(c, q, columns);
  }

  /** A printed WHERE section lets a row pass exactly when the list says so. */
  lemma {:induction false} PassesMeans(c: Compiler, env: Env, row: Row, cs: seq<Clause>)
    requires Lawful(row.reading) && Built(cs)
    ensures var items := Items(c, env, row.reading, Components(cs, Where, c.Engine()));
      Passes(row, WhereText(c, env, cs)) <==> items == [] || AnyOf(Runs(items)) == True
  {
    var list := Components(cs, Where, c.Engine());
    hide ParseCondition, EmitClauses, Runs, AnyOf, Items, OmittedAll, Components, ConditionSection;
    SectionMeans(c, env, row.reading, cs, Where, "WHERE");
    FM.NoItems(c, env, row.reading, list);
  }

  function WhereItems(c: Compiler, q: Query, row: Row): seq<Item> {
    Items(c, q.variables, row.reading, Components(q.clauses, Where, c.Engine()))
  }

  /** A target is null and the guards do not keep the row out: where they are seen,
      because an earlier run of the original WHERE holds and they bind to the last
      run only; where they are not, because there is nothing to keep it out. */
  predicate Overcounted(c: Compiler, q: Query, columns: seq<string>, row: Row) {
    !NonNull(row, columns)
    && if AppendsVisibly(c, q) then EarlierHolds(c, q, row) else Passes(row, WhereText(c, q.variables, q.clauses))
  }

  predicate EarlierHolds(c: Compiler, q: Query, row: Row) {
    var items := WhereItems(c, q, row);
    items != [] && Earlier(Runs(items)) == True
  }

  /** Row by row: what the rewritten query counts. */
  lemma {:induction false} GuardedRow(c: Compiler, q: Query, kind: string, columns: seq<string>, row: Row)
    requires !q.distinct && Built(q.clauses) && Sound(row)
    ensures Passes(row, WhereText(c, q.variables, InnerQuery(q, kind, columns).clauses)) <==>
      (Passes(row, WhereText(c, q.variables, q.clauses)) && NonNull(row, columns)) || Overcounted(c, q, columns, row)
  {
    hide WhereText, Passes, NonNull, AppendsVisibly, InnerQuery, EarlierHolds, Sound, Built;
    if AppendsVisibly(c, q) {
      SeenGuards(c, q, kind, columns, row);
    } else {
      StampedGuardsVanish(c, q, kind, columns);
    }
  }

  /** A query cloned inside a For block stays stamped with that block's dialect: for
      another dialect its guards are invisible and nothing is guarded. */
  lemma {:induction false} StampedGuardsVanish(c: Compiler, q: Query, kind: string, columns: seq<string>)
    requires !q.distinct && !AppendsVisibly(c, q)
    ensures WhereText(c, q.variables, InnerQuery(q, kind, columns).clauses) == WhereText(c, q.variables, q.clauses)
  {
    InnerWhere(c, q, kind, columns);
    assert Components(q.clauses, Where, c.Engine()) + [] == Components(q.clauses, Where, c.Engine());
    hide InnerQuery, ConditionSection, EmitClauses, Components;
  }

  lemma {:induction false} SeenGuards(c: Compiler, q: Query, kind: string, columns: seq<string>, row: Row)
    requires !q.distinct && Built(q.clauses) && AppendsVisibly(c, q) && Sound(row)
    ensures Passes(row, WhereText(c, q.variables, InnerQuery(q, kind, columns).clauses)) <==>
      (Passes(row, WhereText(c, q.variables, q.clauses)) && NonNull(row, columns))
      || (!NonNull(row, columns) && EarlierHolds(c, q, row))
  {
    var inner := InnerQuery(q, kind, columns);
    var items := WhereItems(c, q, row);
    GuardedItems(c, q, kind, columns, row);
    hide InnerQuery, Components, Items, Guards, WhereText, Built, Passes, Runs, AnyOf, Earlier, LastRun,
      GuardTruths, AppendsVisibly, NonNull, FM.Tagged, Lawful;
    PassesMeans(c, q.variables, row, q.clauses);
    PassesMeans(c, q.variables, row, inner.clauses);
    GuardedAny(row, items, columns);
  }

  lemma {:induction false} GuardedItems(c: Compiler, q: Query, kind: string, columns: seq<string>, row: Row)
    requires !q.distinct && Built(q.clauses)
    requires AppendsVisibly(c, q)
    ensures var inner := InnerQuery(q, kind, columns); var list := Components(inner.clauses, Where, c.Engine());
      && Built(inner.clauses)
      && Items(c, q.variables, row.reading, list) == WhereItems(c, q, row) + FM.Tagged(false, GuardTruths(row, columns))
  {
    var list := Components(q.clauses, Where, c.Engine());
    InnerWhere(c, q, kind, columns);
    AllGuards(c, q, columns);
    T.BuiltInner(q, kind, columns);
    hide InnerQuery, Components, Items, Guards, Built, GuardTruths, FM.Tagged;
    FM.ItemsConcat(c, q.variables, row.reading, list, Guards(q, columns));
    GuardItems(c, q, q.variables, row, columns);
  }

  lemma {:induction false} GuardedAny(row: Row, items: seq<Item>, columns: seq<string>)
    requires Sound(row)
    ensures var all := items + FM.Tagged(false, GuardTruths(row, columns));
      (all == [] || AnyOf(Runs(all)) == True) <==>
        ((items == [] || AnyOf(Runs(items)) == True) && NonNull(row, columns))
        || (items != [] && Earlier(Runs(items)) == True && !NonNull(row, columns))
  {
    hide Runs, AnyOf, Earlier, LastRun, GuardTruths, Sound;
    if items != [] || columns != [] {
      GuardedTruth(row, items, columns);
      assert items + FM.Tagged(false, GuardTruths(row, columns)) != [];
      if items != [] { SplitLast(Runs(items)); }
    }
  }

  // ----- counting ---------------------------------------------------------------------------------------

  /** The rows the rewritten query counts. */
  function Counted(c: Compiler, q: Query, kind: string, columns: seq<string>, rows: seq<Row>): seq<Row> {
    Passing(rows, WhereText(c, q.variables, InnerQuery(q, kind, columns).clauses))
  }

  /** The rows of the original query in which all target columns have a value. */
  function Intended(c: Compiler, q: Query, columns: seq<string>, rows: seq<Row>): seq<Row> {
    WithValues(Passing(rows, WhereText(c, q.variables, q.clauses)), columns)
  }

  /** Never too few, and too many exactly when some row is overcounted. */
  lemma {:induction false} CountExact(c: Compiler, q: Query, kind: string, columns: seq<string>, rows: seq<Row>)
    requires !q.distinct && Built(q.clauses)
    requires forall row <- rows :: Sound(row)
    ensures var counted, intended := Counted(c, q, kind, columns, rows), Intended(c, q, columns, rows);
      && |intended| <= |counted|
      && (|counted| == |intended| <==> forall row <- rows :: !Overcounted(c, q, columns, row))
      && (|counted| == |intended| ==> counted == intended)
    decreases rows
  {
    if rows != [] {
      hide WhereText, Overcounted, Sound, Built, InnerQuery, Components, AppendsVisibly, Passing, WithValues, Passes, NonNull;
      CountExact(c, q, kind, columns, rows[1..]);
      GuardedRow(c, q, kind, columns, rows[0]);
      OvercountedSplit(c, q, columns, rows);
      CountStep(rows, WhereText(c, q.variables, q.clauses), WhereText(c, q.variables, InnerQuery(q, kind, columns).clauses), columns);
      OvercountedPasses(c, q, columns, rows[0]);
      SameSuffix(rows[0], Counted(c, q, kind, columns, rows[1..]), Intended(c, q, columns, rows[1..]));
    }
  }

  lemma {:induction false} OvercountedSplit(c: Compiler, q: Query, columns: seq<string>, rows: seq<Row>)
    requires rows != []
    ensures (forall row <- rows :: !Overcounted(c, q, columns, row)) <==>
      !Overcounted(c, q, columns, rows[0]) && forall row <- rows[1..] :: !Overcounted(c, q, columns, row)
  {
    hide Overcounted;
    assert rows == [rows[0]] + rows[1..];
  }

  lemma {:induction false} SameSuffix(row: Row, a: seq<Row>, b: seq<Row>)
    ensures |[row] + a| == 1 + |a| && |[] + a| == |a| && (a == b ==> [row] + a == [row] + b)
  {
  }

  lemma {:induction false} CountStep(rows: seq<Row>, original: seq<Token>, guarded: seq<Token>, columns: seq<string>)
    requires rows != []
    ensures Passing(rows, guarded) == (if Passes(rows[0], guarded) then [rows[0]] else []) + Passing(rows[1..], guarded)
    ensures WithValues(Passing(rows, original), columns) ==
      (if Passes(rows[0], original) && NonNull(rows[0], columns) then [rows[0]] else [])
      + WithValues(Passing(rows[1..], original), columns)
  {
    hide Passes, NonNull;
    var rest := Passing(rows[1..], original);
    if Passes(rows[0], original) {
      assert ([rows[0]] + rest)[1..] == rest;
    } else {
      assert [] + rest == rest;
      assert [] + WithValues(rest, columns) == WithValues(rest, columns);
    }
  }

  lemma {:induction false} OvercountedPasses(c: Compiler, q: Query, columns: seq<string>, row: Row)
    ensures Overcounted(c, q, columns, row) ==> !NonNull(row, columns)
  {
  }

  /** The conditions that reach the text. */
  function Kept(c: Compiler, cs: seq<Clause>): seq<Clause> {
    if cs == [] then [] else (if Omitted(c, cs[0]) then [] else [cs[0]]) + Kept(c, cs[1..])
  }

  /** No condition after the first printed one is joined with OR. */
  predicate AndOnly(c: Compiler, q: Query) {
    var kept := Kept(c, Components(q.clauses, Where, c.Engine()));
    forall i :: 0 < i < |kept| ==> kept[i].body.Condition? && !kept[i].body.or
  }

  lemma {:induction false} KeptItems(c: Compiler, env: Env, I: Reading, cs: seq<Clause>)
    requires forall cl <- cs :: cl.body.Condition?
    ensures var kept, items := Kept(c, cs), Items(c, env, I, cs);
      |kept| == |items| && forall i :: 0 <= i < |kept| ==> kept[i].body.Condition? && items[i].or == kept[i].body.or
  {
    if cs != [] {
      KeptStep(c, env, I, cs);
      hide Kept, Items, Omitted, Says;
      KeptItems(c, env, I, cs[1..]);
    }
  }

  lemma {:induction false} KeptStep(c: Compiler, env: Env, I: Reading, cs: seq<Clause>)
    requires cs != [] && cs[0].body.Condition?
    ensures Kept(c, cs) == if Omitted(c, cs[0]) then Kept(c, cs[1..]) else [cs[0]] + Kept(c, cs[1..])
    ensures Items(c, env, I, cs) == if Omitted(c, cs[0]) then Items(c, env, I, cs[1..])
      else [Item(cs[0].body.or, Says(c, env, I, cs[0]))] + Items(c, env, I, cs[1..])
  {
    hide Omitted, Says;
  }

  lemma {:induction false} OneRunOnly(items: seq<Item>)
    requires items != [] && forall i :: 0 < i < |items| ==> !items[i].or
    ensures |Runs(items)| == 1
  {
    if |items| > 1 {
      var rest := items[1..];
      forall i | 0 < i < |rest| ensures !rest[i].or { assert rest[i] == items[i + 1]; }
      OneRunOnly(rest);
      assert rest[0] == items[1];
    } else {
      assert items[1..] == [];
    }
  }

  /** When the WHERE is joined by AND only, the rewritten COUNT counts exactly the
      rows of the original query with a value in every target column. */
  lemma {:induction false} CountPreserved(c: Compiler, q: Query, kind: string, columns: seq<string>, rows: seq<Row>)
    requires !q.distinct && Built(q.clauses)
    requires AppendsVisibly(c, q) && AndOnly(c, q) && forall row <- rows :: Sound(row)
    ensures Counted(c, q, kind, columns, rows) == Intended(c, q, columns, rows)
  {
    var list := Components(q.clauses, Where, c.Engine());
    SectionConditions(c, q.clauses, Where);
    forall row | row in rows ensures !Overcounted(c, q, columns, row) {
      KeptItems(c, q.variables, row.reading, list);
      var items := WhereItems(c, q, row);
      if items != [] {
        OneRunOnly(items);
        assert Runs(items)[..0] == [];
      }
    }
    CountExact(c, q, kind, columns, rows);
  }

  // ----- clones from a For block ---------------------------------------------------------------------------

  /** Seen from a dialect outside the block the clone was taken in, the rewritten
      query counts every row of the original one: exactly the intended rows if and
      only if none of these lacks a target value. */
  lemma {:induction false} StampedCountExact(c: Compiler, q: Query, kind: string, columns: seq<string>, rows: seq<Row>)
    requires !q.distinct && !AppendsVisibly(c, q)
    ensures var all := Passing(rows, WhereText(c, q.variables, q.clauses));
      && Counted(c, q, kind, columns, rows) == all
      && (Counted(c, q, kind, columns, rows) == Intended(c, q, columns, rows) <==> forall row <- all :: NonNull(row, columns))
  {
    hide WhereText, InnerQuery, AppendsVisibly, NonNull, Passing, WithValues;
    StampedGuardsVanish(c, q, kind, columns);
    AllHaveValues(Passing(rows, WhereText(c, q.variables, q.clauses)), columns);
  }

  lemma {:induction false} AllHaveValues(rows: seq<Row>, columns: seq<string>)
    ensures |WithValues(rows, columns)| <= |rows|
    ensures WithValues(rows, columns) == rows <==> forall row <- rows :: NonNull(row, columns)
  {
    hide NonNull;
    if rows != [] {
      AllHaveValues(rows[1..], columns);
      assert rows == [rows[0]] + rows[1..];
      var rest := WithValues(rows[1..], columns);
      if NonNull(rows[0], columns) {
        assert ([rows[0]] + rest)[1..] == rest;
      } else {
        assert [] + rest == rest;
        assert |WithValues(rows, columns)| < |rows|;
      }
    }
  }

  // ----- what the rewrite prints -------------------------------------------------------------------------------

  /** The FROM and JOIN sections. */
  function SourceText(c: Compiler, env: Env, cs: seq<Clause>): seq<Token> {
    [Sym("FROM")] + TableSection(EmitClauses(c, env, Chosen(c, cs, From))).sql
    + Joined(EmitClauses(c, env, Chosen(c, cs, Joins)), "").sql
  }

  /** No grouping, HAVING, ordering, combination, limit or offset is visible. */
  predicate Bare(c: Compiler, cs: seq<Clause>) {
    && (forall of <- {Group, Having, Order, Combine} :: Components(cs, of, c.Engine()) == [])
    && LimitOf(c, cs) == 0 && OffsetOf(c, cs) == 0
  }

  /** A bare SELECT is its head, its source and its WHERE. */
  lemma {:induction false} BarePrints(c: Compiler, outer: Env, q: Query)
    requires Bare(c, q.clauses)
    ensures var env := outer + q.variables;
      EmitQuery(c, outer, q).sql ==
        HeadSection(c, q, EmitClauses(c, env, Chosen(c, q.clauses, Select))).sql
        + SourceText(c, env, q.clauses) + WhereText(c, env, q.clauses)
  {
    var env := outer + q.variables;
    var p := EmitParts(c, env, q.clauses);
    EmitAssembled(c, outer, q);
    SectionsEmpty(c, env, q.clauses);
    hide EmitQuery, EmitParts, HeadSection, EmitClauses, Chosen, TableSection, Components, LimitOf, OffsetOf;
    AssembledBare(c, q, p);
  }

  lemma {:induction false} SectionsEmpty(c: Compiler, env: Env, cs: seq<Clause>)
    requires Bare(c, cs)
    ensures var p := EmitParts(c, env, cs);
      && p.groups == [] && p.havings == [] && p.combines == []
      && p.columns == EmitClauses(c, env, Chosen(c, cs, Select)) && p.table == EmitClauses(c, env, Chosen(c, cs, From))
      && p.joins == EmitClauses(c, env, Chosen(c, cs, Joins)) && p.wheres == EmitClauses(c, env, Chosen(c, cs, Where))
      && Chosen(c, cs, Having) == [] && Components(cs, Order, c.Engine()) == []
  {
    assert Group in {Group, Having, Order, Combine} && Combine in {Group, Having, Order, Combine};
    assert Having in {Group, Having, Order, Combine} && Order in {Group, Having, Order, Combine};
  }

  lemma {:induction false} AssembledBare(c: Compiler, q: Query, p: Parts)
    requires PartsFit(c, q.clauses, p) && p.groups == [] && p.havings == [] && p.combines == []
    requires Components(q.clauses, Order, c.Engine()) == [] && Chosen(c, q.clauses, Having) == []
    requires LimitOf(c, q.clauses) == 0 && OffsetOf(c, q.clauses) == 0
    ensures Wrapped(c, q, Assemble(c, q, p)).sql ==
      HeadSection(c, q, p.columns).sql + ([Sym("FROM")] + TableSection(p.table).sql + Joined(p.joins, "").sql)
      + ConditionSection("WHERE", Chosen(c, q.clauses, Where), p.wheres).sql
  {
    hide HeadSection, TableSection, Components, LimitOf, OffsetOf, Chosen, Connect;
    var head, from := HeadSection(c, q, p.columns).sql, [Sym("FROM")] + TableSection(p.table).sql;
    var joins := Joined(p.joins, "").sql;
    var where := ConditionSection("WHERE", Chosen(c, q.clauses, Where), p.wheres).sql;
    EmptyTail(c, p.havings, Chosen(c, q.clauses, Having));
    hide ConditionSection, LimitSection, OrdersOut, OrderParts, Listed, Joined;
    assert head + (from + (joins + (where + []))) == head + (from + joins) + where;
  }

  lemma {:induction false} EmptyTail(c: Compiler, havings: seq<Out>, cs: seq<Clause>)
    requires havings == [] && cs == []
    ensures ConditionSection("HAVING", cs, havings) == Nothing && LimitSection(c, false, 0, 0) == Nothing
    ensures OrdersOut(OrderParts(c, [])) == Nothing && Listed("GROUP BY", [], ",") == Nothing && Joined([], "") == Nothing
    ensures Cat(Nothing, Cat(Nothing, Cat(Nothing, Cat(Nothing, Nothing)))) == Nothing
  {
  }

  /** The outer query around a counted one. */
  function Shell(c: Compiler, kind: string, text: seq<Token>): seq<Token> {
    [Sym("SELECT"), Sym(S.Upper(kind) + "("), Ident("*"), Sym(")")] + NameText(c, kind)
    + ([Sym("FROM")] + ([Sym("("), Inner(text), Sym(")")] + AliasText(c, kind + "Query")))
  }

  lemma {:induction false} OuterSections(c: Compiler, kind: string, inner: Query)
    ensures var cs := [Clause("", Aggregated(kind, ["*"])), Clause("", FromQuery(inner))];
      && Bare(c, cs) && Components(cs, Where, c.Engine()) == [] && Components(cs, Joins, c.Engine()) == []
      && One(cs, Aggregate, c.Engine()) == Some(cs[0]) && One(cs, From, c.Engine()) == Some(cs[1])
  {
    var a, b := Clause("", Aggregated(kind, ["*"])), Clause("", FromQuery(inner));
    var cs := [a, b];
    var e := c.Engine();
    hide Components, FirstScoped;
    PairSections(a, b, e);
    OnlyOne(a, e);
    OnlyOne(b, e);
    NoneScoped(e);
  }

  lemma {:induction false} PairSections(a: Clause, b: Clause, e: string)
    requires a.body.Aggregated? && b.body.FromQuery? && a.engine == b.engine == ""
    ensures forall of: Component ::
      Components([a, b], of, e) == (if of == Aggregate then [a] else if of == From then [b] else [])
  {
    forall of: Component ensures Components([a, b], of, e) ==
      if of == Aggregate then [a] else if of == From then [b] else []
    {
      PairComponents(a, b, of, e);
    }
  }

  lemma {:induction false} NoneScoped(e: string)
    ensures FirstScoped([], e) == None && FirstScoped([], "") == None
  {
  }

  lemma {:induction false} OnlyOne(a: Clause, e: string)
    requires a.engine == ""
    ensures (if FirstScoped([a], e).Some? then FirstScoped([a], e) else FirstScoped([a], "")) == Some(a)
  {
    assert [a][1..] == [];
  }

  lemma {:induction false} PairComponents(a: Clause, b: Clause, of: Component, e: string)
    requires a.body.Aggregated? && b.body.FromQuery? && a.engine == b.engine == ""
    ensures Components([a, b], of, e) == if of == Aggregate then [a] else if of == From then [b] else []
  {
    assert [a, b][1..] == [b] && [b][1..] == [];
    assert Components([b], of, e) == if of == From then [b] else [];
  }

  /** A rewritten aggregate counts the rows of one embedded query. */
  lemma {:induction false} OuterPrints(c: Compiler, q: Query, kind: string, columns: seq<string>)
    requires var cl := One(q.clauses, Aggregate, c.Engine()); cl.Some? && cl.value.body == Aggregated(kind, columns)
    requires |columns| != 1 || q.distinct
    ensures EmitQuery(c, map[], TransformAggregate(q, c.Engine())).sql
         == Shell(c, kind, EmitSelect(c, map[], InnerQuery(q, kind, columns)).sql)
  {
    hide TransformAggregate, EmitQuery, EmitSelect, EmitClauses, HeadSection, Components, One, Bare, InnerQuery, Chosen;
    var inner := InnerQuery(q, kind, columns);
    var outer := TransformAggregate(q, c.Engine());
    var none: Env := map[];
    OuterShape(c, q, kind, columns);
    assert none + outer.variables == none;
    InnerAlias(q, kind, columns);
    OuterSections(c, kind, inner);
    BarePrints(c, map[], outer);
    OuterHead(c, outer, kind, inner);
    OuterSource(c, kind, inner);
  }

  lemma {:induction false} OuterShape(c: Compiler, q: Query, kind: string, columns: seq<string>)
    requires var cl := One(q.clauses, Aggregate, c.Engine()); cl.Some? && cl.value.body == Aggregated(kind, columns)
    requires |columns| != 1 || q.distinct
    ensures TransformAggregate(q, c.Engine()) == EmptyQuery.(clauses :=
      [Clause("", Aggregated(kind, ["*"])), Clause("", FromQuery(InnerQuery(q, kind, columns)))])
  {
    hide One;
  }

  lemma {:induction false} InnerAlias(q: Query, kind: string, columns: seq<string>)
    ensures InnerQuery(q, kind, columns).alias == kind + "Query"
  {
  }

  lemma {:induction false} OuterHead(c: Compiler, outer: Query, kind: string, inner: Query)
    requires outer == EmptyQuery.(clauses := [Clause("", Aggregated(kind, ["*"])), Clause("", FromQuery(inner))])
    requires One(outer.clauses, Aggregate, c.Engine()) == Some(outer.clauses[0])
    requires LimitOf(c, outer.clauses) == 0 && OffsetOf(c, outer.clauses) == 0
    ensures forall columns :: (HeadSection(c, outer, columns).sql
      == [Sym("SELECT"), Sym(S.Upper(kind) + "("), Ident("*"), Sym(")")] + NameText(c, kind))
  {
    hide LimitOf, OffsetOf, One;
    assert [Sym("SELECT")] + ([] + ([Sym(S.Upper(kind) + "(")] + [] + [Ident("*"), Sym(")")] + NameText(c, kind)))
      == [Sym("SELECT"), Sym(S.Upper(kind) + "("), Ident("*"), Sym(")")] + NameText(c, kind);
  }

  lemma {:induction false} OuterSource(c: Compiler, kind: string, inner: Query)
    requires var cs := [Clause("", Aggregated(kind, ["*"])), Clause("", FromQuery(inner))];
      && Components(cs, Where, c.Engine()) == [] && Components(cs, Joins, c.Engine()) == []
      && One(cs, From, c.Engine()) == Some(cs[1])
    requires inner.alias == kind + "Query"
    ensures var cs := [Clause("", Aggregated(kind, ["*"])), Clause("", FromQuery(inner))];
      && SourceText(c, map[], cs) ==
           [Sym("FROM")] + ([Sym("("), Inner(EmitSelect(c, map[], inner).sql), Sym(")")] + AliasText(c, kind + "Query"))
      && WhereText(c, map[], cs) == []
  {
    var cs := [Clause("", Aggregated(kind, ["*"])), Clause("", FromQuery(inner))];
    hide EmitSelect, Components, One, AliasText;
    assert Chosen(c, cs, From) == [cs[1]] && [cs[1]][1..] == [];
    assert Chosen(c, cs, Joins) == [] && Chosen(c, cs, Where) == [];
    assert EmitClauses(c, map[], [cs[1]]) == [EmitClause(c, map[], cs[1])];
    assert EmitClause(c, map[], cs[1]) == Embedded(c, EmitSelect(c, map[], inner), inner.alias);
    var table := Embedded(c, EmitSelect(c, map[], inner), inner.alias).sql;
    assert [Sym("FROM")] + table + [] == [Sym("FROM")] + table;
  }

  /** What the counted query keeps of the original, and what it projects. */
  lemma {:induction false} InnerSections(c: Compiler, q: Query, kind: string, columns: seq<string>)
    requires forall of <- {Having, Combine} :: Components(q.clauses, of, c.Engine()) == []
    requires OffsetOf(c, q.clauses) == 0
    ensures var inner := InnerQuery(q, kind, columns);
      && Bare(c, inner.clauses)
      && Components(inner.clauses, From, c.Engine()) == Components(q.clauses, From, c.Engine())
      && Components(inner.clauses, Joins, c.Engine()) == Components(q.clauses, Joins, c.Engine())
  {
    var inner := InnerQuery(q, kind, columns);
    var e := c.Engine();
    hide InnerQuery, Components;
    KeptSection(c, q, kind, columns, From);
    KeptSection(c, q, kind, columns, Joins);
    KeptSection(c, q, kind, columns, Group);
    KeptSection(c, q, kind, columns, Having);
    KeptSection(c, q, kind, columns, Order);
    KeptSection(c, q, kind, columns, Combine);
    KeptSection(c, q, kind, columns, Limit);
    KeptSection(c, q, kind, columns, Offset);
    assert Having in {Having, Combine} && Combine in {Having, Combine};
    OneSame(inner.clauses, q.clauses, Offset, e);
    assert FirstScoped([], e).None? && FirstScoped([], "").None?;
  }

  lemma {:induction false} KeptSection(c: Compiler, q: Query, kind: string, columns: seq<string>, of: Component)
    requires of !in {Where, Select, Aggregate}
    ensures Components(InnerQuery(q, kind, columns).clauses, of, c.Engine()) ==
      if of in {Limit, Order, Group} then [] else Components(q.clauses, of, c.Engine())
  {
    hide Components, Without;
    var e := c.Engine();
    var bare := Without(q.clauses, {Limit, Order, Group});
    if of in {Limit, Order, Group} { ComponentsDropped(q.clauses, {Limit, Order, Group}, of, e); }
    else { ComponentsWithout(q.clauses, {Limit, Order, Group}, of, e); }
    if q.distinct {
      var kept := Without(bare, {Aggregate, Select});
      ComponentsWithout(bare, {Aggregate, Select}, of, e);
      NoComponents(Stamp(q.engineScope, ColumnBodies(columns)), of, e);
      ComponentsConcat(kept, Stamp(q.engineScope, ColumnBodies(columns)), of, e);
    } else {
      NoComponents(Stamp(q.engineScope, GuardBodies(columns)), of, e);
      ComponentsConcat(bare, Stamp(q.engineScope, GuardBodies(columns)), of, e);
    }
  }

  lemma {:induction false} SameSource(c: Compiler, env: Env, a: seq<Clause>, b: seq<Clause>)
    requires Components(a, From, c.Engine()) == Components(b, From, c.Engine())
    requires Components(a, Joins, c.Engine()) == Components(b, Joins, c.Engine())
    ensures SourceText(c, env, a) == SourceText(c, env, b)
  {
    assert One(a, From, c.Engine()) == One(b, From, c.Engine());
    hide EmitClauses, Components, One;
  }

  /** The multi-column form counts the rows of SELECT 1 over the original source and
      the guarded WHERE. */
  lemma {:induction false} CountPrints(c: Compiler, q: Query, kind: string, columns: seq<string>)
    requires var cl := One(q.clauses, Aggregate, c.Engine()); cl.Some? && cl.value.body == Aggregated(kind, columns)
    requires |columns| != 1 && !q.distinct
    requires OffsetOf(c, q.clauses) == 0 && forall of <- {Having, Combine} :: Components(q.clauses, of, c.Engine()) == []
    ensures var inner := InnerQuery(q, kind, columns);
      && EmitQuery(c, map[], TransformAggregate(q, c.Engine())).sql == Shell(c, kind, EmitSelect(c, map[], inner).sql)
      && EmitQuery(c, map[], inner).sql ==
           [Sym("SELECT"), Sym("1")] + SourceText(c, q.variables, q.clauses) + WhereText(c, q.variables, inner.clauses)
  {
    var inner := InnerQuery(q, kind, columns);
    OuterPrints(c, q, kind, columns);
    InnerSections(c, q, kind, columns);
    InnerAggregate(c, q, kind, columns);
    RootVariables(q, kind, columns);
    hide TransformAggregate, EmitQuery, InnerQuery, Components, SourceText, WhereText, EmitSelect, Shell, One;
    BarePrints(c, map[], inner);
    SameSource(c, q.variables, inner.clauses, q.clauses);
    OneHead(c, inner, kind, columns);
  }

  lemma {:induction false} OneHead(c: Compiler, inner: Query, kind: string, columns: seq<string>)
    requires var cl := One(inner.clauses, Aggregate, c.Engine()); cl.Some? && cl.value.body == Aggregated(kind, columns)
    requires |columns| != 1 && LimitOf(c, inner.clauses) == 0 && OffsetOf(c, inner.clauses) == 0
    ensures forall parts :: HeadSection(c, inner, parts).sql == [Sym("SELECT"), Sym("1")]
  {
    hide One, LimitOf, OffsetOf;
  }

  lemma {:induction false} RootVariables(q: Query, kind: string, columns: seq<string>)
    ensures var none: Env := map[]; none + InnerQuery(q, kind, columns).variables == q.variables
  {
  }

  lemma {:induction false} InnerAggregate(c: Compiler, q: Query, kind: string, columns: seq<string>)
    requires !q.distinct
    ensures One(InnerQuery(q, kind, columns).clauses, Aggregate, c.Engine()) == One(q.clauses, Aggregate, c.Engine())
  {
    var bare := Without(q.clauses, {Limit, Order, Group});
    ComponentsWithout(q.clauses, {Limit, Order, Group}, Aggregate, c.Engine());
    NoComponents(Guards(q, columns), Aggregate, c.Engine());
    hide Components, Without, Stamp;
    ComponentsConcat(bare, Guards(q, columns), Aggregate, c.Engine());
    assert Components(bare, Aggregate, c.Engine()) + [] == Components(bare, Aggregate, c.Engine());
    OneSame(InnerQuery(q, kind, columns).clauses, q.clauses, Aggregate, c.Engine());
  }

  lemma {:induction false} OneSame(a: seq<Clause>, b: seq<Clause>, of: Component, e: string)
    requires Components(a, of, e) == Components(b, of, e)
    ensures One(a, of, e) == One(b, of, e)
  {
  }

  /** The names of a projection list. */
  function Names(columns: seq<string>): seq<Token> {
    if columns == [] then [] else if |columns| == 1 then [Ident(columns[0])]
    else [Ident(columns[0]), Sym(",")] + Names(columns[1..])
  }

  /** What the distinct form projects: the target columns, unless there are none or
      the dialect does not see them. */
  function DistinctNames(c: Compiler, q: Query, columns: seq<string>): seq<Token> {
    if columns == [] || !AppendsVisibly(c, q) then [Sym("*")] else Names(columns)
  }

  /** The distinct form counts the rows of SELECT DISTINCT over exactly the target
      columns, in order, the source and the original WHERE. */
  lemma {:induction false} DistinctPrints(c: Compiler, q: Query, kind: string, columns: seq<string>)
    requires var cl := One(q.clauses, Aggregate, c.Engine()); cl.Some? && cl.value.body == Aggregated(kind, columns)
    requires q.distinct
    requires OffsetOf(c, q.clauses) == 0 && forall of <- {Having, Combine} :: Components(q.clauses, of, c.Engine()) == []
    ensures var inner := InnerQuery(q, kind, columns);
      && EmitQuery(c, map[], TransformAggregate(q, c.Engine())).sql == Shell(c, kind, EmitSelect(c, map[], inner).sql)
      && EmitQuery(c, map[], inner).sql ==
           [Sym("SELECT"), Sym("DISTINCT")] + DistinctNames(c, q, columns)
           + SourceText(c, q.variables, q.clauses) + WhereText(c, q.variables, q.clauses)
  {
    var inner := InnerQuery(q, kind, columns);
    OuterPrints(c, q, kind, columns);
    InnerSections(c, q, kind, columns);
    DistinctSections(c, q, kind, columns);
    RootVariables(q, kind, columns);
    NamesJoin(c, q.variables, q.engineScope, columns);
    DistinctKept(q, kind, columns);
    hide TransformAggregate, EmitQuery, InnerQuery, Components, EmitSelect, Shell, One, EmitClauses;
    BarePrints(c, map[], inner);
    SameSource(c, q.variables, inner.clauses, q.clauses);
    DistinctHead(c, inner, EmitClauses(c, q.variables, if AppendsVisibly(c, q) then Stamp(q.engineScope, ColumnBodies(columns)) else []),
                 DistinctNames(c, q, columns));
  }

  lemma {:induction false} DistinctKept(q: Query, kind: string, columns: seq<string>)
    ensures InnerQuery(q, kind, columns).distinct == q.distinct
  {
  }

  lemma {:induction false} DistinctSections(c: Compiler, q: Query, kind: string, columns: seq<string>)
    requires q.distinct
    ensures var inner := InnerQuery(q, kind, columns).clauses;
      && One(inner, Aggregate, c.Engine()).None?
      && Chosen(c, inner, Select) == (if AppendsVisibly(c, q) then Stamp(q.engineScope, ColumnBodies(columns)) else [])
      && Chosen(c, inner, Where) == Chosen(c, q.clauses, Where)
  {
    var e := c.Engine();
    DistinctSection(c, q, kind, columns, Where);
    DistinctSection(c, q, kind, columns, Select);
    DistinctSection(c, q, kind, columns, Aggregate);
    hide Components, InnerQuery;
    assert FirstScoped([], e) == None && FirstScoped([], "") == None;
  }

  lemma {:induction false} DistinctSection(c: Compiler, q: Query, kind: string, columns: seq<string>, of: Component)
    requires q.distinct && of in {Where, Select, Aggregate}
    ensures Components(InnerQuery(q, kind, columns).clauses, of, c.Engine()) ==
      if of == Where then Components(q.clauses, Where, c.Engine())
      else if of == Select && AppendsVisibly(c, q) then Stamp(q.engineScope, ColumnBodies(columns)) else []
  {
    var e := c.Engine();
    var bare := Without(q.clauses, {Limit, Order, Group});
    var kept := Without(bare, {Aggregate, Select});
    var added := Stamp(q.engineScope, ColumnBodies(columns));
    if of == Where {
      ComponentsWithout(q.clauses, {Limit, Order, Group}, Where, e);
      ComponentsWithout(bare, {Aggregate, Select}, Where, e);
      NoComponents(added, Where, e);
    } else {
      ComponentsDropped(bare, {Aggregate, Select}, of, e);
      if of == Select { AllColumns(c, q, columns); } else { NoComponents(added, of, e); }
    }
    hide Components, Without, Stamp;
    ComponentsConcat(kept, added, of, e);
  }

  lemma {:induction false} AllColumns(c: Compiler, q: Query, columns: seq<string>)
    ensures var added := Stamp(q.engineScope, ColumnBodies(columns));
      Components(added, Select, c.Engine()) == if AppendsVisibly(c, q) then added else []
  {
    if columns != [] {
      AllColumns(c, q, columns[1..]);
      ColumnsCons(q, columns);
      hide Stamp, ColumnBodies;
    }
  }

  lemma {:induction false} ColumnsCons(q: Query, columns: seq<string>)
    requires columns != []
    ensures var added := Stamp(q.engineScope, ColumnBodies(columns));
      && added != [] && added[0] == Clause(q.engineScope, Column(Select, columns[0]))
      && added[1..] == Stamp(q.engineScope, ColumnBodies(columns[1..])) && added == [added[0]] + added[1..]
  {
    assert Stamp(q.engineScope, ColumnBodies(columns))[1..] == Stamp(q.engineScope, ColumnBodies(columns[1..]));
  }

  lemma {:induction false} NamesJoin(c: Compiler, env: Env, scope: string, columns: seq<string>)
    ensures Joined(EmitClauses(c, env, Stamp(scope, ColumnBodies(columns))), ",").sql == Names(columns)
    ensures |EmitClauses(c, env, Stamp(scope, ColumnBodies(columns)))| == |columns|
  {
    if columns != [] {
      NamesJoin(c, env, scope, columns[1..]);
      var added := Stamp(scope, ColumnBodies(columns));
      assert added[1..] == Stamp(scope, ColumnBodies(columns[1..]));
      hide Stamp, ColumnBodies;
      assert EmitClause(c, env, added[0]) == Text([Ident(columns[0])]);
      hide EmitClause;
      var parts := EmitClauses(c, env, added);
      assert parts[1..] == EmitClauses(c, env, added[1..]);
    }
  }

  lemma {:induction false} DistinctHead(c: Compiler, inner: Query, parts: seq<Out>, names: seq<Token>)
    requires inner.distinct && One(inner.clauses, Aggregate, c.Engine()).None?
    requires LimitOf(c, inner.clauses) == 0 && OffsetOf(c, inner.clauses) == 0
    requires names == if parts == [] then [Sym("*")] else Joined(parts, ",").sql
    ensures HeadSection(c, inner, parts).sql == [Sym("SELECT"), Sym("DISTINCT")] + names
  {
    hide One, LimitOf, OffsetOf, Joined;
    assert [Sym("SELECT")] + [Sym("DISTINCT")] + ([] + names) == [Sym("SELECT"), Sym("DISTINCT")] + names;
  }
}
