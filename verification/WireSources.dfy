/** The tables of a converted wire query: its first table, inner-joined with the others
    on the conventional key columns, read back from the printed text. */
module WireSources {
  import opened Ast
  import opened Conditions
  import opened Dialects
  import opened Emit
  import opened Filters
  import opened JoinMeaning
  import opened Placeholders
  import opened Sections
  import opened WireMeaning
  import opened WireQuery
  import S = Strings

  /** The predicate of the conventional join of a further table. */
  function KeysAgree(primary: string, table: string): seq<Token> {
    [Ident(primary + "." + table + "_id"), Sym("="), Ident(table + "." + table + "_id")]
  }

  /** A read join is the conventional one of a further table. */
  ghost predicate Conventional<R(!new)>(db: Database<R>, primary: string, table: string, read: ReadJoin) {
    && read.kind == "INNER JOIN" && read.target == [Ident(table)]
    && forall t: Tuple<R> :: ReadOn(db, read.on)(t) == db.reading(t)(KeysAgree(primary, table))
  }

  /** A query whose tables and joins come first. */
  ghost predicate Fronted(q: Query, from: seq<string>, more: seq<Clause>) {
    from != [] && q.clauses == Sources(from) + more && forall cl <- more :: Tag(cl) != Ast.From && Tag(cl) != Joins
  }

  lemma {:induction false} FrontedJoins(c: Compiler, q: Query, from: seq<string>, more: seq<Clause>)
    requires Fronted(q, from, more)
    ensures Components(q.clauses, Joins, c.Engine()) == Includes(from[0], from[1..])
    ensures One(q.clauses, Ast.From, c.Engine()) == Some(Clause("", FromTable(from[0])))
  {
    var table, joins := Clause("", FromTable(from[0])), Includes(from[0], from[1..]);
    IncludeTags(from[0], from[1..]);
    assert Tag(table) == Ast.From;
    hide Includes, Components, Tag, One;
    FrontedSection(c, table, joins, more, Joins);
    FrontedSection(c, table, joins, more, Ast.From);
    WholeSection(joins, Joins, c.Engine());
    NoComponents(joins, Ast.From, c.Engine());
    OneVisible(table, Ast.From, c.Engine());
    OneVisible(table, Joins, c.Engine());
    assert [] + joins == joins && [table] + [] == [table];
    OneUnscoped(q.clauses, Ast.From, c.Engine(), table);
  }

  lemma {:induction false} FrontedSection(c: Compiler, table: Clause, joins: seq<Clause>, more: seq<Clause>, of: Component)
    requires forall cl <- more :: Tag(cl) != of
    ensures Components([table] + joins + more, of, c.Engine()) == Components([table], of, c.Engine()) + Components(joins, of, c.Engine())
  {
    hide Components, Tag;
    ComponentsConcat([table] + joins, more, of, c.Engine());
    ComponentsConcat([table], joins, of, c.Engine());
    NoComponents(more, of, c.Engine());
    var both := Components([table], of, c.Engine()) + Components(joins, of, c.Engine());
    assert both + [] == both;
  }

  lemma {:induction false} IncludeAt(primary: string, tables: seq<string>)
    ensures |Includes(primary, tables)| == |tables|
    ensures forall i :: 0 <= i < |tables| ==> Includes(primary, tables)[i] == Include(primary, tables[i])
  {
    hide Include;
    if tables != [] { IncludeAt(primary, tables[1..]); }
  }

  /** The scope of a conventional join, as a dialect sees it. */
  lemma {:induction false} IncludeScope(c: Compiler, primary: string, table: string)
    ensures var cs := Include(primary, table).body.clauses;
      && One(cs, Ast.From, c.Engine()) == Some(Clause("", FromTable(table)))
      && Components(cs, Where, c.Engine()) == [Clause("", Condition(Where, false, false,
           TwoColumns(primary + "." + table + "_id", "=", table + "." + table + "_id")))]
  {
    var a, b := Clause("", FromTable(table)),
                Clause("", Condition(Where, false, false, TwoColumns(primary + "." + table + "_id", "=", table + "." + table + "_id")));
    assert Include(primary, table).body.clauses == [a] + [b];
    assert Tag(a) == Ast.From && Tag(b) == Where;
    hide Tag, Components, One;
    ComponentsConcat([a], [b], Ast.From, c.Engine());
    ComponentsConcat([a], [b], Where, c.Engine());
    OneVisible(a, Ast.From, c.Engine());
    OneVisible(b, Ast.From, c.Engine());
    OneVisible(a, Where, c.Engine());
    OneVisible(b, Where, c.Engine());
    OneUnscoped([a] + [b], Ast.From, c.Engine(), a);
  }

  lemma {:induction false} KeysSay(c: Compiler, env: Env, I: Reading, primary: string, table: string)
    requires c.Allows("=")
    ensures var on := Clause("", Condition(Where, false, false, TwoColumns(primary + "." + table + "_id", "=", table + "." + table + "_id")));
      !OmittedAll(c, [on]) && Meaning(c, env, I, [on]) == I(KeysAgree(primary, table))
  {
    var shape := TwoColumns(primary + "." + table + "_id", "=", table + "." + table + "_id");
    var on := Clause("", Condition(Where, false, false, shape));
    EqualPrints(c, env, shape.first, shape.second);
    assert [on][1..] == [];
    assert !Omitted(c, on);
    assert Items(c, env, I, [on]) == [Item(false, Says(c, env, I, on))];
    OneRun(Says(c, env, I, on));
    assert Says(c, env, I, on) == I(KeysAgree(primary, table));
  }

  lemma {:induction false} EqualPrints(c: Compiler, env: Env, first: string, second: string)
    requires c.Allows("=")
    ensures ShapeOut(c, env, false, TwoColumns(first, "=", second), Nothing).sql == [Ident(first), Sym("="), Ident(second)]
  {
    assert S.Lower("=") == "=";
  }

  lemma {:induction false} OneRun(truth: Truth)
    ensures AnyOf(Conditions.Runs([Item(false, truth)])) == truth
  {
    assert [Item(false, truth)][1..] == [];
    assert Conditions.Runs([Item(false, truth)]) == [[truth]];
    assert [[truth]][1..] == [] && [truth][1..] == [];
    assert Conditions.AllOf([truth]) == truth;
  }

  lemma {:induction false} EqualAllowed(c: Compiler)
    ensures c.Allows("=")
  {
    SymbolsAllowed(c);
    assert "eq" in Comparisons;
  }

  lemma {:induction false} ConventionalReads<R(!new)>(c: Compiler, env: Env, db: Database<R>, primary: string, table: string, read: ReadJoin)
    requires Include(primary, table).body.Join? && Faithful(c, env, db, read, Include(primary, table))
    ensures Conventional(db, primary, table, read)
  {
    var cl := Include(primary, table);
    EqualAllowed(c);
    IncludeScope(c, primary, table);
    TableIsName(c, env, cl.body.clauses, table);
    hide One, Components, Include, OmittedAll, Meaning, TableText, ReadOn, KeysAgree;
    forall t: Tuple<R> ensures ReadOn(db, read.on)(t) == db.reading(t)(KeysAgree(primary, table)) {
      KeysSay(c, env, db.reading(t), primary, table);
      assert ReadOn(db, read.on)(t) == Asked(c, env, db, cl)(t);
    }
  }

  lemma {:induction false} TableIsName(c: Compiler, env: Env, cs: seq<Clause>, table: string)
    requires One(cs, Ast.From, c.Engine()) == Some(Clause("", FromTable(table)))
    ensures TableText(c, env, cs) == [Ident(table)]
  {
    hide One;
  }

  /** The tables of a query whose tables come first. */
  lemma {:induction false} FrontedReads<R(!new)>(c: Compiler, outer: Env, q: Query, from: seq<string>, more: seq<Clause>, db: Database<R>)
    requires Fronted(q, from, more) && Built(q.clauses) && NamedJoins(q.clauses) && LawfulOn(db)
    requires Components(q.clauses, Combine, c.Engine()) == []
    ensures var source := ReadSource(EmitQuery(c, outer, q).sql);
      && source.Some? && source.value.table == [Ident(from[0])] && |source.value.joins| == |from| - 1
      && forall i :: 0 <= i < |from| - 1 ==> Conventional(db, from[0], from[i + 1], source.value.joins[i])
  {
    var joins := Components(q.clauses, Joins, c.Engine());
    var env := outer + q.variables;
    FrontedJoins(c, q, from, more);
    assert NamedJoins(joins);
    hide Fronted, Built, NamedJoins, NamedCombines, LawfulOn, EmitQuery, ReadSource, SourceRows, JoinMeaning.Wanted, Components, One, Includes, Include,
      Faithful, Conventional, TableText;
    TableIsName(c, env, q.clauses, from[0]);
    PrintedJoinsMean(c, outer, q, db);
    IncludeAt(from[0], from[1..]);
    var found := ReadSource(EmitQuery(c, outer, q).sql).value.joins;
    forall i | 0 <= i < |from| - 1 ensures Conventional(db, from[0], from[i + 1], found[i]) {
      assert joins[i] == Include(from[0], from[i + 1]);
      ConventionalReads(c, env, db, from[0], from[i + 1], found[i]);
    }
  }

  /** Every accepted wire query, counting or not: it selects from its first hooked table,
      inner-joined with the others in order, each on the column named after it. */
  lemma {:induction false} ConvertedJoins<R(!new)>(show: Data -> string, hooks: seq<Hook>, c: Compiler, outer: Env, d: QData, db: Database<R>)
    requires ToQuery(show, hooks, d).Ok? && LawfulOn(db)
    ensures FromThrough(hooks, d.from).Ok? && FromThrough(hooks, d.from).value != []
    ensures var from := FromThrough(hooks, d.from).value;
      var source := ReadSource(EmitQuery(c, outer, ToQuery(show, hooks, d).value).sql);
      && source.Some? && source.value.table == [Ident(from[0])] && |source.value.joins| == |from| - 1
      && forall i :: 0 <= i < |from| - 1 ==> Conventional(db, from[0], from[i + 1], source.value.joins[i])
  {
    var q := ToQuery(show, hooks, d).value;
    if d.count {
      CountIs(show, hooks, d);
      var from, g := FromThrough(hooks, d.from).value, Resolve(show, hooks, d.filter).value;
      hide ToQuery, FromThrough, Resolve, EmitQuery, ReadSource, Conventional, LawfulOn;
      CountFronted(c, q, from, g);
      FrontedReads(c, outer, q, from, Landed(g) + [Clause("", Aggregated("count", ["*"]))], db);
    } else {
      ConvertedParts(show, hooks, d);
      var from, g := FromThrough(hooks, d.from).value, Resolve(show, hooks, d.filter).value;
      var columns, directions := Columns(hooks, d.select).value, Directions(hooks, d.orderBy).value;
      hide ToQuery, FromThrough, Resolve, EmitQuery, ReadSource, Conventional, LawfulOn, Columns, Directions;
      PartsFronted(c, q, from, g, columns, directions, d.top, d.skip);
      FrontedReads(c, outer, q, from,
                   Landed(g) + (ColumnClauses(columns) + OrderClauses(directions) + Pagination(d.top, d.skip)), db);
    }
  }

  lemma {:induction false} CountFronted(c: Compiler, q: Query, from: seq<string>, g: Resolved)
    requires AsksCount(q, from, g)
    ensures Fronted(q, from, Landed(g) + [Clause("", Aggregated("count", ["*"]))])
    ensures Built(q.clauses) && NamedJoins(q.clauses) && Components(q.clauses, Combine, c.Engine()) == []
  {
    hide Built, NamedJoins, Components, Landed, ReadyTree, Sources, Tag;
    CountBuilt(c, q, from, g);
    CountParts(c, q, from, g, Combine);
    LandedTags(g);
    CountedTag();
    FrontIs(q, from, Landed(g), [Clause("", Aggregated("count", ["*"]))]);
  }

  lemma {:induction false} CountedTag()
    ensures Tag(Clause("", Aggregated("count", ["*"]))) == Aggregate
  {
  }

  lemma {:induction false} FrontIs(q: Query, from: seq<string>, landed: seq<Clause>, rest: seq<Clause>)
    requires from != [] && q.clauses == Sources(from) + landed + rest
    requires (forall cl <- landed :: Tag(cl) == Where) && forall cl <- rest :: Tag(cl) != Ast.From && Tag(cl) != Joins
    ensures Fronted(q, from, landed + rest)
  {
    hide Tag, Sources;
    assert Sources(from) + landed + rest == Sources(from) + (landed + rest);
  }

  lemma {:induction false} PartsFronted(c: Compiler, q: Query, from: seq<string>, g: Resolved, columns: seq<string>,
                                        directions: seq<Direction>, top: int, skip: int)
    requires AsksRows(q, from, g, columns, directions, top, skip)
    ensures Fronted(q, from, Landed(g) + (ColumnClauses(columns) + OrderClauses(directions) + Pagination(top, skip)))
    ensures Built(q.clauses) && NamedJoins(q.clauses) && Components(q.clauses, Combine, c.Engine()) == []
  {
    var rest := ColumnClauses(columns) + OrderClauses(directions) + Pagination(top, skip);
    PartsBuilt(c, q, from, g, columns, directions, top, skip);
    PageParts(c, q, from, g, columns, directions, top, skip);
    LandedTags(g);
    hide Built, NamedJoins, Components, Landed, ReadyTree, Sources, Tag, ColumnClauses, OrderClauses, Pagination;
    RestTags(columns, directions, top, skip);
    FrontIs(q, from, Landed(g), rest);
  }

  lemma {:induction false} RestTags(columns: seq<string>, directions: seq<Direction>, top: int, skip: int)
    ensures forall cl <- ColumnClauses(columns) + OrderClauses(directions) + Pagination(top, skip) :: Tag(cl) != Ast.From && Tag(cl) != Joins
  {
    ColumnTags(columns);
    OrderTags(directions);
    PageTags(top, skip);
    hide Tag, ColumnClauses, OrderClauses, Pagination;
  }

  lemma {:induction false} PageTags(top: int, skip: int)
    ensures forall cl <- Pagination(top, skip) :: Tag(cl) == Limit || Tag(cl) == Offset
  {
  }
}
