/** What a converted wire query asks for beyond its filter, read back from the printed
    text and stated on the fields of the wire format. */
module WireMeaning {
  import opened Ast
  import opened Conditions
  import opened Dialects
  import opened Emit
  import opened Filters
  import opened Keywords
  import opened PagedQueries
  import opened Placeholders
  import opened Sections
  import opened Statements
  import opened WireQuery
  import A = Alignment
  import FM = FilterMeaning
  import P = Paging
  import Pages
  import SM = SelectMeaning
  import S = Strings
  import V = Validation
  import W = Windows

  // ----- the fields behind their hooks ---------------------------------------------------------

  /** A column behind the ordering pointcut of all hooks. */
  function OrderThrough(hooks: seq<Hook>, column: string): Result<string> {
    if hooks == [] then Ok(column)
    else match hooks[0].orderBy(column) case Ok(next) => OrderThrough(hooks[1..], next) case Err(problems) => Err(problems)
  }

  function SelectThrough(hooks: seq<Hook>, column: string): Result<string> {
    if hooks == [] then Ok(column)
    else match hooks[0].select(column) case Ok(next) => SelectThrough(hooks[1..], next) case Err(problems) => Err(problems)
  }

  function FromThrough(hooks: seq<Hook>, from: seq<string>): Result<seq<string>> {
    if hooks == [] then Ok(from)
    else match hooks[0].from(from) case Ok(next) => FromThrough(hooks[1..], next) case Err(problems) => Err(problems)
  }

  /** The selected columns behind the hooks, in order. */
  function Columns(hooks: seq<Hook>, select: seq<string>): Result<seq<string>> {
    if select == [] then Ok([])
    else
      match SelectThrough(hooks, select[0])
      case Err(problems) => Err(problems)
      case Ok(column) =>
        match Columns(hooks, select[1..]) case Err(problems) => Err(problems) case Ok(columns) => Ok([column] + columns)
  }

  datatype Direction = Direction(column: string, descending: bool)

  /** The orderings behind the hooks, in order: descending for "desc", ascending for
      everything else. */
  function Directions(hooks: seq<Hook>, orders: seq<OrderBy>): Result<seq<Direction>> {
    if orders == [] then Ok([])
    else
      match OrderThrough(hooks, orders[0].column)
      case Err(problems) => Err(problems)
      case Ok(column) =>
        if column == "" then Err([ByRequired])
        else
          match Directions(hooks, orders[1..])
          case Err(problems) => Err(problems)
          case Ok(more) => Ok([Direction(column, orders[0].xsc == "desc")] + more)
  }

  // ----- reading raw text ------------------------------------------------------------------------

  /** The text of a raw expression as it is shown. */
  function Shown(ts: seq<Token>): string {
    if ts == [] then "" else [match ts[0] case Chr(ch) => ch case _ => '?'] + Shown(ts[1..])
  }

  lemma {:induction false} RawShows(text: string, bindings: seq<Value>)
    ensures Shown(RawTokens(text, bindings)) == text
  {
    if text != "" { RawShows(text[1..], if text[0] == '?' && bindings != [] then bindings[1..] else bindings); }
  }

  /** A raw ordering, read from its last word. */
  function ReadDirection(text: string): Option<Direction> {
    if |text| >= 5 && text[|text| - 5..] == " DESC" then Some(Direction(text[..|text| - 5], true))
    else if |text| >= 4 && text[|text| - 4..] == " ASC" then Some(Direction(text[..|text| - 4], false))
    else None
  }

  lemma {:induction false} DirectionReads(column: string, descending: bool)
    ensures ReadDirection(column + if descending then " DESC" else " ASC") == Some(Direction(column, descending))
  {
    var text := column + if descending then " DESC" else " ASC";
    if descending {
      assert text[|text| - 5..] == " DESC" && text[..|text| - 5] == column;
    } else {
      assert text[|text| - 4..] == " ASC" && text[..|text| - 4] == column;
      if |text| >= 5 { assert text[|text| - 5..][2] == 'A' && " DESC"[2] == 'E'; }
    }
  }

  /** The quotes of every dialect are told from the markers. */
  lemma {:induction false} QuotesAreUnconfused(c: Compiler)
    ensures S.Unconfused(c.Quotes())
  {
  }

  /** A name as a dialect shows it in raw text: its marker pairs are quotes. */
  function InQuotes(c: Compiler, text: string): string { S.Scan(c.Quotes(), "{}[]", text) }

  lemma {:induction false} SortShows(c: Compiler, column: string, xsc: string)
    ensures var raw := Raw(Written(column + if xsc == "desc" then " DESC" else " ASC"), []);
      ReadDirection(Shown(ExpressionTokens(c, raw))) == Some(Direction(InQuotes(c, column), xsc == "desc"))
  {
    var word := if xsc == "desc" then " DESC" else " ASC";
    QuotesAreUnconfused(c);
    S.MarkersAreQuotes(c.Quotes(), column + word);
    S.ScanThen(c.Quotes(), column, word);
    RawShows(S.WrapIdentifiers(c.Quotes(), column + word), []);
    DirectionReads(InQuotes(c, column), xsc == "desc");
    hide S.Scan, S.WrapIdentifiers, RawTokens, Shown, ReadDirection;
  }

  /** A projected item: a name, or the text of an expression. */
  datatype Item = Name(column: string) | Text(text: string) | Everything

  function ReadItem(ts: seq<Token>): Option<Item> {
    if ts == [Sym("*")] then Some(Everything)
    else if |ts| == 1 && ts[0].Ident? then Some(Name(ts[0].name))
    else if |ts| == 1 && ts[0].Inner? then Some(Text(Shown(ts[0].tokens)))
    else None
  }

  function ReadItems(items: seq<seq<Token>>): Option<seq<Item>> {
    if items == [] then Some([])
    else
      match ReadItem(items[0])
      case None => None
      case Some(item) => match ReadItems(items[1..]) case None => None case Some(more) => Some([item] + more)
  }

  /** The projection of a SELECT without DISTINCT. */
  function ReadProjection(head: seq<Token>): Option<seq<Item>> {
    if head == [] || head[0] != Sym("SELECT") then None else ReadItems(SM.Split(head[1..]))
  }

  /** What a hooked column asks for: an expression when it has a parenthesis. */
  function WantedItem(c: Compiler, column: string): Item {
    if '(' in column then Text(InQuotes(c, column)) else Name(column)
  }

  function AllWanted(c: Compiler, columns: seq<string>): seq<Item> {
    if columns == [] then [] else [WantedItem(c, columns[0])] + AllWanted(c, columns[1..])
  }

  function WantedItems(c: Compiler, columns: seq<string>): seq<Item> {
    if columns == [] then [Everything] else AllWanted(c, columns)
  }

  // ----- the clauses of a converted query ---------------------------------------------------------

  function ColumnClauses(columns: seq<string>): seq<Clause> {
    if columns == [] then [] else [Projected(columns[0])] + ColumnClauses(columns[1..])
  }

  function OrderClauses(directions: seq<Direction>): seq<Clause> {
    if directions == [] then []
    else
      [Clause("", OrderRaw(Raw(Written(directions[0].column + if directions[0].descending then " DESC" else " ASC"), [])))]
      + OrderClauses(directions[1..])
  }

  lemma {:induction false} SelectChain(hooks: seq<Hook>, column: string)
    ensures Chain(SelectStages(hooks), column) == SelectThrough(hooks, column)
  {
    if hooks != [] {
      assert SelectStages(hooks)[1..] == SelectStages(hooks[1..]);
      var next := hooks[0].select(column);
      if next.Ok? { SelectChain(hooks[1..], next.value); }
    }
  }

  lemma {:induction false} OrderChain(hooks: seq<Hook>, column: string)
    ensures Chain(OrderStages(hooks), column) == OrderThrough(hooks, column)
  {
    if hooks != [] {
      assert OrderStages(hooks)[1..] == OrderStages(hooks[1..]);
      var next := hooks[0].orderBy(column);
      if next.Ok? { OrderChain(hooks[1..], next.value); }
    }
  }

  lemma {:induction false} FromChain(hooks: seq<Hook>, from: seq<string>)
    ensures Chain(FromStages(hooks), from) == FromThrough(hooks, from)
  {
    if hooks != [] {
      assert FromStages(hooks)[1..] == FromStages(hooks[1..]);
      var next := hooks[0].from(from);
      if next.Ok? { FromChain(hooks[1..], next.value); }
    }
  }

  lemma {:induction false} ProjectionsAreColumns(hooks: seq<Hook>, select: seq<string>)
    ensures match Columns(hooks, select)
            case Ok(columns) => Projections(hooks, select) == Ok(ColumnClauses(columns))
            case Err(problems) => Projections(hooks, select) == Err(problems)
  {
    if select != [] {
      SelectChain(hooks, select[0]);
      ProjectionsAreColumns(hooks, select[1..]);
      hide Chain, SelectThrough, Projected;
    }
  }

  lemma {:induction false} SortsAreDirections(hooks: seq<Hook>, orders: seq<OrderBy>)
    ensures match Directions(hooks, orders)
            case Ok(directions) => Sorts(hooks, orders) == Ok(OrderClauses(directions))
            case Err(problems) => Sorts(hooks, orders) == Err(problems)
  {
    if orders != [] {
      OrderChain(hooks, orders[0].column);
      SortsAreDirections(hooks, orders[1..]);
      hide Chain, OrderThrough;
    }
  }

  lemma {:induction false} ColumnTags(columns: seq<string>)
    ensures forall cl <- ColumnClauses(columns) :: Tag(cl) == Select && cl.engine == ""
  {
    if columns != [] { ColumnTags(columns[1..]); }
  }

  lemma {:induction false} OrderTags(directions: seq<Direction>)
    ensures forall cl <- OrderClauses(directions) :: Tag(cl) == Order && cl.engine == ""
  {
    if directions != [] { OrderTags(directions[1..]); }
  }

  lemma {:induction false} WholeSection(cs: seq<Clause>, of: Component, engine: string)
    requires forall cl <- cs :: Tag(cl) == of && cl.engine == ""
    ensures Components(cs, of, engine) == cs
  {
    if cs != [] {
      WholeSection(cs[1..], of, engine);
      assert cs == [cs[0]] + cs[1..];
    }
  }

  /** A converted query, taken apart. */
  ghost predicate AsksRows(q: Query, from: seq<string>, g: Resolved, columns: seq<string>, directions: seq<Direction>, top: int, skip: int) {
    && ReadyTree(g) && from != []
    && q == EmptyQuery.(clauses :=
         Sources(from) + Landed(g) + (ColumnClauses(columns) + OrderClauses(directions) + Pagination(top, skip)))
  }

  lemma {:induction false} PagesOf(c: Compiler, top: int, skip: int, of: Component)
    ensures Components(Pagination(top, skip), of, c.Engine()) ==
      if top <= 0 then []
      else if of == Limit then [Clause("", LimitTo(top))] else if of == Offset then [Clause("", OffsetBy(skip))] else []
  {
    if top > 0 {
      var a, b := Clause("", LimitTo(top)), Clause("", OffsetBy(skip));
      assert Tag(a) == Limit && Tag(b) == Offset;
      hide Tag;
      assert [a, b] == [a] + [b];
      ComponentsConcat([a], [b], of, c.Engine());
      OneVisible(a, of, c.Engine());
      OneVisible(b, of, c.Engine());
    }
  }

  lemma {:induction false} OneVisible(cl: Clause, of: Component, engine: string)
    requires cl.engine == ""
    ensures Components([cl], of, engine) == if Tag(cl) == of then [cl] else []
  {
    hide Tag;
    assert [cl][1..] == [];
  }

  /** The sections of a converted query that its filter and its tables take no part in. */
  lemma {:induction false} PartsOf(c: Compiler, q: Query, from: seq<string>, g: Resolved, columns: seq<string>, directions: seq<Direction>,
                                   top: int, skip: int, of: Component)
    requires AsksRows(q, from, g, columns, directions, top, skip) && of !in {Ast.From, Joins, Where}
    ensures Components(q.clauses, of, c.Engine()) ==
      match of
      case Select => ColumnClauses(columns)
      case Order => OrderClauses(directions)
      case _ => Components(Pagination(top, skip), of, c.Engine())
  {
    var a, b, p := ColumnClauses(columns), OrderClauses(directions), Pagination(top, skip);
    hide Components, Landed, ReadyTree, ColumnClauses, OrderClauses, Pagination, Sources, Tag;
    BeforeRest(c, from, g, a + b + p, of);
    RestOf(c, columns, directions, p, of);
    PagesOf(c, top, skip, of);
    Gather(Components(a, of, c.Engine()), Components(b, of, c.Engine()), Components(p, of, c.Engine()));
  }

  /** Tables, joins and conditions are in no other section. */
  lemma {:induction false} BeforeRest(c: Compiler, from: seq<string>, g: Resolved, rest: seq<Clause>, of: Component)
    requires from != [] && ReadyTree(g) && of !in {Ast.From, Joins, Where}
    ensures Components(Sources(from) + Landed(g) + rest, of, c.Engine()) == Components(rest, of, c.Engine())
  {
    var sources, landed := Sources(from), Landed(g);
    SourceTags(from);
    LandedTags(g);
    hide Components, Landed, ReadyTree, Sources, Tag;
    NoComponents(sources, of, c.Engine());
    NoComponents(landed, of, c.Engine());
    ComponentsConcat(sources + landed, rest, of, c.Engine());
    ComponentsConcat(sources, landed, of, c.Engine());
    assert ([] + []) + Components(rest, of, c.Engine()) == Components(rest, of, c.Engine());
  }

  lemma {:induction false} RestOf(c: Compiler, columns: seq<string>, directions: seq<Direction>, p: seq<Clause>, of: Component)
    ensures var a, b := ColumnClauses(columns), OrderClauses(directions);
      && Components(a + b + p, of, c.Engine()) ==
           Components(a, of, c.Engine()) + Components(b, of, c.Engine()) + Components(p, of, c.Engine())
      && Components(a, of, c.Engine()) == (if of == Select then a else [])
      && Components(b, of, c.Engine()) == (if of == Order then b else [])
  {
    var a, b := ColumnClauses(columns), OrderClauses(directions);
    ColumnTags(columns);
    OrderTags(directions);
    hide Components, ColumnClauses, OrderClauses, Tag;
    ComponentsConcat(a + b, p, of, c.Engine());
    ComponentsConcat(a, b, of, c.Engine());
    if of == Select { WholeSection(a, of, c.Engine()); } else { NoComponents(a, of, c.Engine()); }
    if of == Order { WholeSection(b, of, c.Engine()); } else { NoComponents(b, of, c.Engine()); }
  }

  lemma {:induction false} Gather(a: seq<Clause>, b: seq<Clause>, p: seq<Clause>)
    ensures b == [] && p == [] ==> a + b + p == a
    ensures a == [] && p == [] ==> a + b + p == b
    ensures a == [] && b == [] ==> a + b + p == p
  {
  }

  lemma {:induction false} SourceTags(from: seq<string>)
    requires from != []
    ensures forall cl <- Sources(from) :: (Tag(cl) == Ast.From || Tag(cl) == Joins) && cl.engine == ""
  {
    IncludeTags(from[0], from[1..]);
    hide Includes;
  }

  lemma {:induction false} IncludeTags(primary: string, tables: seq<string>)
    ensures forall cl <- Includes(primary, tables) :: Tag(cl) == Joins && cl.engine == ""
  {
    if tables != [] { IncludeTags(primary, tables[1..]); }
  }

  lemma {:induction false} LandedTags(g: Resolved)
    requires ReadyTree(g)
    ensures forall cl <- Landed(g) :: Tag(cl) == Where
  {
    FM.LandedAre(g);
    hide Landed, ReadyTree;
    forall cl | cl in Landed(g) ensures Tag(cl) == Where { assert FM.Landable(cl); }
  }

  /** An accepted wire query that asks for rows. */
  lemma {:induction false} ConvertedParts(show: Data -> string, hooks: seq<Hook>, d: QData)
    requires ToQuery(show, hooks, d).Ok? && !d.count
    ensures FromThrough(hooks, d.from).Ok? && FromThrough(hooks, d.from).value != []
    ensures Columns(hooks, d.select).Ok? && Directions(hooks, d.orderBy).Ok? && Resolve(show, hooks, d.filter).Ok?
    ensures AsksRows(ToQuery(show, hooks, d).value, FromThrough(hooks, d.from).value, Resolve(show, hooks, d.filter).value,
                  Columns(hooks, d.select).value, Directions(hooks, d.orderBy).value, d.top, d.skip)
  {
    FromChain(hooks, d.from);
    ProjectionsAreColumns(hooks, d.select);
    SortsAreDirections(hooks, d.orderBy);
    ResolvedReady(show, hooks, d.filter);
    hide Chain, FromThrough, Columns, Directions, Projections, Sorts, Resolve, Landed, ReadyTree, ColumnClauses, OrderClauses,
      Pagination, Problems, FromStages, Includes;
  }

  // ----- the text ------------------------------------------------------------------------------------

  lemma {:induction false} WrittenIsShown(c: Compiler, text: string)
    ensures Shown(ExpressionTokens(c, Raw(Written(text), []))) == InQuotes(c, text)
    ensures text != "" ==> ExpressionTokens(c, Raw(Written(text), [])) != []
  {
    QuotesAreUnconfused(c);
    S.MarkersAreQuotes(c.Quotes(), text);
    RawShows(S.WrapIdentifiers(c.Quotes(), text), []);
    assert text != "" ==> InQuotes(c, text) != "";
    hide S.WrapIdentifiers;
  }

  lemma {:induction false} ColumnReads(c: Compiler, env: Env, column: string)
    ensures var ts := EmitClause(c, env, Projected(column)).sql; Sym(",") !in ts && ReadItem(ts) == Some(WantedItem(c, column))
  {
    if '(' in column { WrittenIsShown(c, column); }
    hide ExpressionTokens, Shown, InQuotes;
  }

  lemma {:induction false} ColumnsRead(c: Compiler, env: Env, columns: seq<string>)
    ensures var parts := EmitClauses(c, env, ColumnClauses(columns));
      && |parts| == |columns| && (forall p <- parts :: Sym(",") !in p.sql)
      && ReadItems(SM.Texts(parts)) == Some(AllWanted(c, columns))
  {
    hide EmitClause, ReadItem, WantedItem, Projected;
    if columns == [] {
      assert SM.Texts(EmitClauses(c, env, ColumnClauses(columns))) == [];
    } else {
      ColumnReads(c, env, columns[0]);
      ColumnsRead(c, env, columns[1..]);
      ColumnStep(c, env, columns);
      var first, rest := EmitClause(c, env, Projected(columns[0])), EmitClauses(c, env, ColumnClauses(columns[1..]));
      hide EmitClauses, ColumnClauses, ReadItems;
      SM.TextsCons(first, rest);
      ItemsStep(first.sql, SM.Texts(rest));
    }
  }

  lemma {:induction false} ColumnStep(c: Compiler, env: Env, columns: seq<string>)
    requires columns != []
    ensures EmitClauses(c, env, ColumnClauses(columns)) ==
      [EmitClause(c, env, Projected(columns[0]))] + EmitClauses(c, env, ColumnClauses(columns[1..]))
  {
    hide EmitClause, Projected;
    assert ColumnClauses(columns)[1..] == ColumnClauses(columns[1..]);
  }

  lemma {:induction false} ItemsStep(first: seq<Token>, rest: seq<seq<Token>>)
    ensures ReadItems([first] + rest) ==
      match ReadItem(first)
      case None => None
      case Some(item) => match ReadItems(rest) case None => None case Some(more) => Some([item] + more)
  {
    hide ReadItem;
    assert ([first] + rest)[1..] == rest;
  }

  lemma {:induction false} ProjectionReads(c: Compiler, env: Env, columns: seq<string>)
    ensures var parts := EmitClauses(c, env, ColumnClauses(columns));
      ReadProjection([Sym("SELECT")] + (if parts == [] then [Sym("*")] else Joined(parts, ",").sql)) == Some(WantedItems(c, columns))
  {
    var parts := EmitClauses(c, env, ColumnClauses(columns));
    var list := if parts == [] then [Sym("*")] else Joined(parts, ",").sql;
    ColumnsRead(c, env, columns);
    hide EmitClauses, ColumnClauses, SM.Split, AllWanted;
    assert ([Sym("SELECT")] + list)[1..] == list;
    if parts == [] {
      assert "*"[0] != ","[0];
      SM.SplitItem([Sym("*")], []);
      assert [[Sym("*")]][1..] == [];
      assert ReadItem([Sym("*")]) == Some(Everything);
      assert columns == [] && [Everything] + [] == [Everything];
      assert ReadItems([[Sym("*")]]) == Some([Everything] + []);
    } else {
      SM.SplitJoined(parts);
    }
  }

  /** The orderings read from raw texts. */
  function ReadDirections(sorts: seq<SM.Sort>): Option<seq<Direction>> {
    if sorts == [] then Some([])
    else if !sorts[0].ByText? then None
    else
      match ReadDirection(Shown(sorts[0].tokens))
      case None => None
      case Some(direction) => match ReadDirections(sorts[1..]) case None => None case Some(more) => Some([direction] + more)
  }

  function InDialect(c: Compiler, directions: seq<Direction>): seq<Direction> {
    if directions == [] then []
    else [Direction(InQuotes(c, directions[0].column), directions[0].descending)] + InDialect(c, directions[1..])
  }

  lemma {:induction false} DirectionsRead(c: Compiler, directions: seq<Direction>)
    requires SM.Orders(OrderClauses(directions))
    ensures ReadDirections(SM.AllAsked(c, OrderClauses(directions))) == Some(InDialect(c, directions))
  {
    hide Shown, ExpressionTokens, InQuotes, ReadDirection, BuiltClause;
    if directions != [] {
      SortShows(c, directions[0].column, if directions[0].descending then "desc" else "asc");
      assert OrderClauses(directions)[1..] == OrderClauses(directions[1..]);
      DirectionsRead(c, directions[1..]);
    }
  }

  // ----- converted queries are built -----------------------------------------------------------------

  lemma {:induction false} PartsBuilt(c: Compiler, q: Query, from: seq<string>, g: Resolved, columns: seq<string>, directions: seq<Direction>,
                                      top: int, skip: int)
    requires AsksRows(q, from, g, columns, directions, top, skip)
    ensures Built(q.clauses) && NamedJoins(q.clauses) && WrittenColumns(q.clauses)
    ensures Built(Unpaged(q).clauses) && NamedJoins(Components(Unpaged(q).clauses, Joins, c.Engine()))
  {
    var a, b, p := ColumnClauses(columns), OrderClauses(directions), Pagination(top, skip);
    SourcesOk(c, from);
    FM.LandedBuilt(g);
    FM.LandedAre(g);
    RestBuilt(columns, directions, top, skip);
    SourceJoins(from);
    hide Built, Landed, ReadyTree, ColumnClauses, OrderClauses, Pagination, Sources, BuiltClause, V.ClauseOk;
    FM.BuiltConcat(Sources(from), Landed(g));
    FM.BuiltConcat(Sources(from) + Landed(g), a + b + p);
    A.BuiltSubset(q.clauses, Unpaged(q).clauses);
    forall cl | cl in q.clauses ensures (cl.body.Join? ==> cl.body.kind in JoinKinds) && (cl.body.RawColumn? ==> cl.body.raw.expression.Written?) {
      if cl in Landed(g) { assert FM.Landable(cl); }
    }
  }

  lemma {:induction false} RestBuilt(columns: seq<string>, directions: seq<Direction>, top: int, skip: int)
    ensures var rest := ColumnClauses(columns) + OrderClauses(directions) + Pagination(top, skip);
      Built(rest) && forall cl <- rest :: !cl.body.Join? && (cl.body.RawColumn? ==> cl.body.raw.expression.Written?)
  {
    var rest := ColumnClauses(columns) + OrderClauses(directions) + Pagination(top, skip);
    ColumnsBare(columns);
    OrdersBare(directions);
    hide ColumnClauses, OrderClauses;
    forall cl | cl in rest ensures BuiltClause(cl) && !cl.body.Join? && (cl.body.RawColumn? ==> cl.body.raw.expression.Written?) {
      if !(cl in ColumnClauses(columns) || cl in OrderClauses(directions)) { assert cl in Pagination(top, skip); }
      assert Bare(cl);
      BareIs(cl);
    }
    hide BuiltClause;
    AllBuilt(rest);
  }

  lemma {:induction false} BareIs(cl: Clause)
    requires Bare(cl)
    ensures BuiltClause(cl) && !cl.body.Join? && (cl.body.RawColumn? ==> cl.body.raw.expression.Written?)
  {
  }

  lemma {:induction false} ColumnsBare(columns: seq<string>)
    ensures forall cl <- ColumnClauses(columns) :: Bare(cl)
  {
    if columns != [] { ColumnsBare(columns[1..]); }
  }

  lemma {:induction false} OrdersBare(directions: seq<Direction>)
    ensures forall cl <- OrderClauses(directions) :: Bare(cl)
  {
    if directions != [] { OrdersBare(directions[1..]); }
  }

  lemma {:induction false} SourceJoins(from: seq<string>)
    requires from != []
    ensures forall cl <- Sources(from) :: !cl.body.RawColumn? && (cl.body.Join? ==> cl.body.kind in JoinKinds)
  {
    IncludeJoins(from[0], from[1..]);
    hide Includes, JoinKinds;
  }

  lemma {:induction false} IncludeJoins(primary: string, tables: seq<string>)
    ensures forall cl <- Includes(primary, tables) :: cl.body.Join? && cl.body.kind in JoinKinds
  {
    if tables != [] { IncludeJoins(primary, tables[1..]); }
  }

  // ----- the main results -----------------------------------------------------------------------------

  /** The text whose rows are paged, read back: its projection and its ordering. */
  lemma {:induction false} PartsRead(c: Compiler, outer: Env, q: Query, from: seq<string>, g: Resolved, columns: seq<string>,
                                     directions: seq<Direction>, top: int, skip: int)
    requires AsksRows(q, from, g, columns, directions, top, skip)
    ensures var s := ReadSections(Unwrapped(EmitQuery(c, outer, Unpaged(q)).sql));
      && ReadProjection(s.head) == Some(WantedItems(c, columns))
      && (match SM.ReadOrdering(s.order) case None => false case Some(sorts) => ReadDirections(sorts) == Some(InDialect(c, directions)))
      && s.group == [] && s.having == [] && s.page == [] && s.combined == []
  {
    var u := Unpaged(q);
    var env := outer + q.variables;
    PartsBuilt(c, q, from, g, columns, directions, top, skip);
    UnpagedParts(c, q, from, g, columns, directions, top, skip);
    assert !Recompiled(c, u) by { NoPages(c, q.clauses); }
    SelectReads(c, outer, u);
    SM.OrderingReads(c, outer, u);
    DirectionsRead(c, directions);
    HeadText(c, env, u, columns);
    ProjectionReads(c, env, columns);
    EmptySections(c, env, u);
    hide AsksRows, EmitQuery, ReadSections, Unwrapped, Built, NamedJoins, NamedCombines, Components, Recompiled, HeadSection, EmitClauses,
      TableSection, ConditionSection, Emit.Listed, W.Ordering, LimitSection, Joined, ColumnClauses, OrderClauses, ReadProjection,
      SM.ReadOrdering, SM.AllAsked, ReadDirections, Chosen, LimitOf, OffsetOf, Unpaged;
  }

  lemma {:induction false} UnpagedParts(c: Compiler, q: Query, from: seq<string>, g: Resolved, columns: seq<string>, directions: seq<Direction>,
                                        top: int, skip: int)
    requires AsksRows(q, from, g, columns, directions, top, skip)
    ensures var cs := Unpaged(q).clauses; var e := c.Engine();
      && Components(cs, Select, e) == ColumnClauses(columns) && Components(cs, Order, e) == OrderClauses(directions)
      && Components(cs, Group, e) == [] && Components(cs, Having, e) == [] && Components(cs, Combine, e) == []
      && Components(cs, Aggregate, e) == [] && LimitOf(c, cs) == 0 && OffsetOf(c, cs) == 0
      && Unpaged(q).variables == q.variables && !Unpaged(q).distinct
  {
    NoPages(c, q.clauses);
    UnpagedSection(c, q, from, g, columns, directions, top, skip, Select);
    UnpagedSection(c, q, from, g, columns, directions, top, skip, Order);
    UnpagedSection(c, q, from, g, columns, directions, top, skip, Group);
    UnpagedSection(c, q, from, g, columns, directions, top, skip, Having);
    UnpagedSection(c, q, from, g, columns, directions, top, skip, Combine);
    UnpagedSection(c, q, from, g, columns, directions, top, skip, Aggregate);
    hide Components, LimitOf, OffsetOf, Without, ColumnClauses, OrderClauses, Landed, Sources, Pagination, ReadyTree;
  }

  lemma {:induction false} UnpagedSection(c: Compiler, q: Query, from: seq<string>, g: Resolved, columns: seq<string>,
                                          directions: seq<Direction>, top: int, skip: int, of: Component)
    requires AsksRows(q, from, g, columns, directions, top, skip) && of in {Select, Order, Group, Having, Combine, Aggregate}
    ensures Components(Unpaged(q).clauses, of, c.Engine()) ==
      match of case Select => ColumnClauses(columns) case Order => OrderClauses(directions) case _ => []
  {
    PartsOf(c, q, from, g, columns, directions, top, skip, of);
    PagesOf(c, top, skip, of);
    hide Components, AsksRows, Without, ColumnClauses, OrderClauses, Pagination;
    ChosenUnpaged(c, q.clauses, of);
  }

  lemma {:induction false} HeadText(c: Compiler, env: Env, u: Query, columns: seq<string>)
    requires Components(u.clauses, Select, c.Engine()) == ColumnClauses(columns) && Components(u.clauses, Aggregate, c.Engine()) == []
    requires LimitOf(c, u.clauses) == 0 && OffsetOf(c, u.clauses) == 0 && !u.distinct
    ensures var parts := EmitClauses(c, env, ColumnClauses(columns));
      HeadSection(c, u, EmitClauses(c, env, Chosen(c, u.clauses, Select))).sql ==
        [Sym("SELECT")] + (if parts == [] then [Sym("*")] else Joined(parts, ",").sql)
  {
    hide LimitOf, OffsetOf, EmitClauses, ColumnClauses, Joined, Components;
    assert One(u.clauses, Aggregate, c.Engine()).None?;
    assert TopSection(c, 0, 0) == Nothing;
  }

  lemma {:induction false} EmptySections(c: Compiler, env: Env, u: Query)
    requires forall of <- {Group, Having, Combine} :: Components(u.clauses, of, c.Engine()) == []
    requires LimitOf(c, u.clauses) == 0 && OffsetOf(c, u.clauses) == 0
    ensures var s := SectionTexts(c, env, u); s.group == [] && s.having == [] && s.page == [] && s.combined == []
  {
    assert Group in {Group, Having, Combine} && Having in {Group, Having, Combine} && Combine in {Group, Having, Combine};
    ChosenIs(c, u.clauses, Group);
    ChosenIs(c, u.clauses, Having);
    ChosenIs(c, u.clauses, Combine);
    NoTail(c, Components(u.clauses, Order, c.Engine()) != []);
    hide LimitOf, OffsetOf, Components, HeadSection, TableSection, W.Ordering, LimitSection, Chosen;
  }

  /** An accepted wire query, read back from the text of the query without its page: it
      projects the hooked columns in order (everything without one), and orders by the
      hooked columns in order, descending exactly for "desc"; marker pairs are quotes in
      both. */
  lemma {:induction false} ConvertedReads(show: Data -> string, hooks: seq<Hook>, c: Compiler, outer: Env, d: QData)
    requires ToQuery(show, hooks, d).Ok? && !d.count
    ensures Columns(hooks, d.select).Ok? && Directions(hooks, d.orderBy).Ok?
    ensures var s := ReadSections(Unwrapped(EmitQuery(c, outer, Unpaged(ToQuery(show, hooks, d).value)).sql));
      && ReadProjection(s.head) == Some(WantedItems(c, Columns(hooks, d.select).value))
      && (match SM.ReadOrdering(s.order)
          case None => false
          case Some(sorts) => ReadDirections(sorts) == Some(InDialect(c, Directions(hooks, d.orderBy).value)))
      && s.group == [] && s.having == [] && s.page == [] && s.combined == []
  {
    ConvertedParts(show, hooks, d);
    hide ToQuery, AsksRows, FromThrough, Columns, Directions, Resolve, EmitQuery, ReadSections, Unwrapped, ReadProjection, SM.ReadOrdering,
      ReadDirections, InDialect, WantedItems, Unpaged;
    PartsRead(c, outer, ToQuery(show, hooks, d).value, FromThrough(hooks, d.from).value, Resolve(show, hooks, d.filter).value,
              Columns(hooks, d.select).value, Directions(hooks, d.orderBy).value, d.top, d.skip);
  }

  lemma {:induction false} PageNumbers(c: Compiler, q: Query, from: seq<string>, g: Resolved, columns: seq<string>, directions: seq<Direction>,
                                       top: int, skip: int)
    requires AsksRows(q, from, g, columns, directions, top, skip)
    ensures LimitOf(c, q.clauses) == (if top > 0 then top else 0) && OffsetOf(c, q.clauses) == (if top > 0 then skip else 0)
    ensures One(q.clauses, Aggregate, c.Engine()).None? && Components(q.clauses, Combine, c.Engine()) == []
    ensures Chosen(c, q.clauses, Select) == ColumnClauses(columns)
  {
    PageParts(c, q, from, g, columns, directions, top, skip);
    ChosenColumns(c, q, columns);
    hide Components, AsksRows, ColumnClauses, OrderClauses, Chosen, Pagination;
    BoundsAre(c, q.clauses, top, skip);
  }

  lemma {:induction false} BoundsAre(c: Compiler, cs: seq<Clause>, top: int, skip: int)
    requires Components(cs, Limit, c.Engine()) == if top > 0 then [Clause("", LimitTo(top))] else []
    requires Components(cs, Offset, c.Engine()) == if top > 0 then [Clause("", OffsetBy(skip))] else []
    ensures LimitOf(c, cs) == (if top > 0 then top else 0) && OffsetOf(c, cs) == (if top > 0 then skip else 0)
  {
    hide Components;
    if top > 0 {
      OneUnscoped(cs, Limit, c.Engine(), Clause("", LimitTo(top)));
      OneUnscoped(cs, Offset, c.Engine(), Clause("", OffsetBy(skip)));
      hide One;
    }
  }

  lemma {:induction false} PageParts(c: Compiler, q: Query, from: seq<string>, g: Resolved, columns: seq<string>, directions: seq<Direction>,
                                     top: int, skip: int)
    requires AsksRows(q, from, g, columns, directions, top, skip)
    ensures var cs, e := q.clauses, c.Engine();
      && Components(cs, Limit, e) == (if top > 0 then [Clause("", LimitTo(top))] else [])
      && Components(cs, Offset, e) == (if top > 0 then [Clause("", OffsetBy(skip))] else [])
      && Components(cs, Aggregate, e) == [] && Components(cs, Combine, e) == [] && Components(cs, Select, e) == ColumnClauses(columns)
  {
    hide Components, AsksRows, Pagination, ColumnClauses, OrderClauses;
    PartsOf(c, q, from, g, columns, directions, top, skip, Limit);
    PartsOf(c, q, from, g, columns, directions, top, skip, Offset);
    PartsOf(c, q, from, g, columns, directions, top, skip, Aggregate);
    PartsOf(c, q, from, g, columns, directions, top, skip, Combine);
    PartsOf(c, q, from, g, columns, directions, top, skip, Select);
    PagesOf(c, top, skip, Limit);
    PagesOf(c, top, skip, Offset);
    PagesOf(c, top, skip, Aggregate);
    PagesOf(c, top, skip, Combine);
  }

  lemma {:induction false} ChosenColumns(c: Compiler, q: Query, columns: seq<string>)
    requires Components(q.clauses, Aggregate, c.Engine()) == [] && Components(q.clauses, Select, c.Engine()) == ColumnClauses(columns)
    ensures Chosen(c, q.clauses, Select) == ColumnClauses(columns) && One(q.clauses, Aggregate, c.Engine()).None?
  {
    hide Components, ColumnClauses;
  }

  lemma {:induction false} OneUnscoped(cs: seq<Clause>, of: Component, engine: string, cl: Clause)
    requires Components(cs, of, engine) == [cl] && cl.engine == ""
    ensures One(cs, of, engine) == Some(cl)
  {
    hide Components;
    assert [cl][1..] == [];
    assert FirstScoped([cl], "") == Some(cl);
  }

  lemma {:induction false} ProjectionPrints(c: Compiler, env: Env, columns: seq<string>)
    ensures columns != [] ==> Joined(EmitClauses(c, env, ColumnClauses(columns)), ",").sql != []
  {
    if columns != [] {
      var parts := EmitClauses(c, env, ColumnClauses(columns));
      ColumnReads(c, env, columns[0]);
      hide EmitClause, Projected, WantedItem;
      assert parts[0].sql == EmitClause(c, env, Projected(columns[0])).sql != [];
    }
  }

  /** The page of an accepted wire query, for every dialect: with a positive top it is
      that many of the rows behind the first skip ones, exactly when no bound wraps
      around; otherwise it is all rows. */
  lemma {:induction false} ConvertedPages<T>(show: Data -> string, hooks: seq<Hook>, c: Compiler, outer: Env, d: QData, D: W.Database<T>)
    requires ToQuery(show, hooks, d).Ok? && !d.count && d.top < TWO_63 && d.skip < TWO_63
    ensures var q := ToQuery(show, hooks, d).value;
      var rows := D(W.Starred(EmitQuery(c, outer, Unpaged(q)).sql));
      var page := W.ReadRows(c, D, EmitQuery(c, outer, q).sql);
      && (d.top > 0 ==> (page == Some(P.Take(P.Skip(rows, d.skip), d.top)) <==> P.WindowFits(c.dialect, d.top, d.skip, |rows|)))
      && (d.top <= 0 ==> page == Some(rows))
  {
    var q := ToQuery(show, hooks, d).value;
    var limit, offset := if d.top > 0 then d.top else 0, if d.top > 0 then d.skip else 0;
    PageFields(show, hooks, d);
    ConvertedParts(show, hooks, d);
    PageReads(c, outer, q, FromThrough(hooks, d.from).value, Resolve(show, hooks, d.filter).value, Columns(hooks, d.select).value,
              Directions(hooks, d.orderBy).value, d.top, d.skip, D);
    var rows := D(W.Starred(EmitQuery(c, outer, Unpaged(q)).sql));
    hide ToQuery, AsksRows, EmitQuery, Unpaged, W.ReadRows, W.Starred, FromThrough, Columns, Directions, Resolve, P.WindowFits;
    NoPageFits(c.dialect, rows);
  }

  lemma {:induction false} NoPageFits<T>(d: Dialect, rows: seq<T>)
    ensures P.WindowFits(d, 0, 0, |rows|) && P.Window(0, 0, rows) == rows
  {
  }

  lemma {:induction false} PageFields(show: Data -> string, hooks: seq<Hook>, d: QData)
    requires ToQuery(show, hooks, d).Ok?
    ensures d.top >= 0 && d.skip >= 0
  {
    assert Problems(d) == [];
    hide FilterProblems, OrdersProblems;
  }

  lemma {:induction false} PageReads<T>(c: Compiler, outer: Env, q: Query, from: seq<string>, g: Resolved, columns: seq<string>,
                                        directions: seq<Direction>, top: int, skip: int, D: W.Database<T>)
    requires AsksRows(q, from, g, columns, directions, top, skip) && 0 <= top < TWO_63 && 0 <= skip < TWO_63
    ensures var limit, offset := if top > 0 then top else 0, if top > 0 then skip else 0;
      var rows := D(W.Starred(EmitQuery(c, outer, Unpaged(q)).sql));
      (W.ReadRows(c, D, EmitQuery(c, outer, q).sql) == Some(P.Window(limit, offset, rows)) <==> P.WindowFits(c.dialect, limit, offset, |rows|))
  {
    PagePremises(c, outer, q, from, g, columns, directions, top, skip);
    hide AsksRows, EmitQuery, Unpaged, W.ReadRows, W.Starred, Components, Chosen, Built, NamedJoins, WrittenColumns, LimitOf, OffsetOf, One,
      ColumnClauses, P.WindowFits, P.Window, Pages.PagedSource, Pages.Numberable;
    Pages.PrintedPageIsWindow(c, outer, q, D);
  }

  lemma {:induction false} PagePremises(c: Compiler, outer: Env, q: Query, from: seq<string>, g: Resolved, columns: seq<string>,
                                        directions: seq<Direction>, top: int, skip: int)
    requires AsksRows(q, from, g, columns, directions, top, skip) && 0 <= top < TWO_63 && 0 <= skip < TWO_63
    ensures Built(q.clauses) && NamedJoins(Components(q.clauses, Joins, c.Engine())) && WrittenColumns(Chosen(c, q.clauses, Select))
    ensures Components(q.clauses, Combine, c.Engine()) == [] && P.Sized(LimitOf(c, q.clauses), OffsetOf(c, q.clauses))
    ensures LimitOf(c, q.clauses) == (if top > 0 then top else 0) && OffsetOf(c, q.clauses) == (if top > 0 then skip else 0)
    ensures Pages.PagedSource(c, q) == Unpaged(q) && Pages.Numberable(c, outer, q)
  {
    PartsBuilt(c, q, from, g, columns, directions, top, skip);
    PlainOfParts(q, from, g, columns, directions, top, skip);
    hide AsksRows, Built, LimitOf, OffsetOf, One, ColumnClauses, Chosen, Components, Unpaged, Pages.Numberable, NamedJoins, WrittenColumns, Recompiled;
    PageNumbers(c, q, from, g, columns, directions, top, skip);
    NamedAndWritten(c, q.clauses);
    NumbersSeen(c, outer, q, columns);
    PagedIsUnpaged(c, q);
  }

  lemma {:induction false} NamedAndWritten(c: Compiler, cs: seq<Clause>)
    requires NamedJoins(cs) && WrittenColumns(cs)
    ensures NamedJoins(Components(cs, Joins, c.Engine())) && WrittenColumns(Chosen(c, cs, Select))
  {
    hide JoinKinds;
  }

  lemma {:induction false} PagedIsUnpaged(c: Compiler, q: Query)
    requires !q.distinct
    ensures Pages.PagedSource(c, q) == Unpaged(q)
  {
    hide Without, Recompiled;
    assert W.Undistinct(q) == q;
  }

  lemma {:induction false} PlainOfParts(q: Query, from: seq<string>, g: Resolved, columns: seq<string>, directions: seq<Direction>,
                                        top: int, skip: int)
    requires AsksRows(q, from, g, columns, directions, top, skip)
    ensures q.engineScope == "" && !q.distinct
  {
  }

  lemma {:induction false} NumbersSeen(c: Compiler, outer: Env, q: Query, columns: seq<string>)
    requires q.engineScope == "" && One(q.clauses, Aggregate, c.Engine()).None? && Chosen(c, q.clauses, Select) == ColumnClauses(columns)
    ensures Pages.Numberable(c, outer, q)
  {
    ProjectionPrints(c, outer + q.variables, columns);
    hide Joined, EmitClauses, Chosen, One;
  }

  // ----- counting -------------------------------------------------------------------------------------

  /** A counting wire query, taken apart. */
  ghost predicate AsksCount(q: Query, from: seq<string>, g: Resolved) {
    && ReadyTree(g) && from != []
    && q == EmptyQuery.(clauses := Sources(from) + Landed(g) + [Clause("", Aggregated("count", ["*"]))])
  }

  lemma {:induction false} CountParts(c: Compiler, q: Query, from: seq<string>, g: Resolved, of: Component)
    requires AsksCount(q, from, g) && of !in {Ast.From, Joins, Where}
    ensures Components(q.clauses, of, c.Engine()) == if of == Aggregate then [Clause("", Aggregated("count", ["*"]))] else []
  {
    var counted := Clause("", Aggregated("count", ["*"]));
    hide Components, Landed, ReadyTree, Sources;
    BeforeRest(c, from, g, [counted], of);
    OneVisible(counted, of, c.Engine());
  }

  lemma {:induction false} CountBuilt(c: Compiler, q: Query, from: seq<string>, g: Resolved)
    requires AsksCount(q, from, g)
    ensures Built(q.clauses) && NamedJoins(q.clauses)
  {
    var counted := [Clause("", Aggregated("count", ["*"]))];
    CountedBuilt();
    hide Built, Landed, ReadyTree, Sources, V.ClauseOk, Tag;
    SourcesOk(c, from);
    FM.LandedBuilt(g);
    FM.BuiltConcat(Sources(from), Landed(g));
    FM.BuiltConcat(Sources(from) + Landed(g), counted);
    CountJoins(from, g);
  }

  lemma {:induction false} CountedBuilt()
    ensures Built([Clause("", Aggregated("count", ["*"]))])
  {
    var counted := Clause("", Aggregated("count", ["*"]));
    BareIs(counted);
    hide BuiltClause;
    AllBuilt([counted]);
  }

  lemma {:induction false} CountJoins(from: seq<string>, g: Resolved)
    requires ReadyTree(g) && from != []
    ensures NamedJoins(Sources(from) + Landed(g) + [Clause("", Aggregated("count", ["*"]))])
  {
    FM.LandedAre(g);
    SourceJoins(from);
    hide Landed, ReadyTree, Sources, JoinKinds;
    forall cl | cl in Landed(g) ensures !cl.body.Join? { assert FM.Landable(cl); }
  }

  /** The aggregate rewrite leaves a plain COUNT(*) as it is. */
  lemma {:induction false} CountCompilesAsItIs(c: Compiler, q: Query, from: seq<string>, g: Resolved)
    requires AsksCount(q, from, g)
    ensures TransformAggregate(q, c.Engine()) == q
  {
    var counted := Clause("", Aggregated("count", ["*"]));
    CountParts(c, q, from, g, Aggregate);
    OneUnscoped(q.clauses, Aggregate, c.Engine(), counted);
    CountTags(q, from, g);
    hide AsksCount, Components, One, Without;
    PlainTransform(q, c.Engine(), counted);
    W.WithoutNone(q.clauses, {Limit, Order, Group});
  }

  lemma {:induction false} PlainTransform(q: Query, engine: string, cl: Clause)
    requires One(q.clauses, Aggregate, engine) == Some(cl) && cl.body.Aggregated? && |cl.body.columns| == 1 && !q.distinct
    ensures TransformAggregate(q, engine) == Drop(q, {Limit, Order, Group})
  {
    hide One, Without, InnerQuery;
  }

  lemma {:induction false} CountTags(q: Query, from: seq<string>, g: Resolved)
    requires AsksCount(q, from, g)
    ensures forall cl <- q.clauses :: Tag(cl) !in {Limit, Order, Group}
  {
    var counted := Clause("", Aggregated("count", ["*"]));
    SourceTags(from);
    LandedTags(g);
    assert Tag(counted) == Aggregate;
    hide Landed, ReadyTree, Sources, Tag;
    forall cl | cl in q.clauses ensures Tag(cl) !in {Limit, Order, Group} {
      if cl in Sources(from) {
      } else if cl in Landed(g) {
      } else {
        assert cl == counted;
      }
    }
  }

  lemma {:induction false} CountHead(c: Compiler, q: Query, columns: seq<Out>)
    requires One(q.clauses, Aggregate, c.Engine()) == Some(Clause("", Aggregated("count", ["*"]))) && !q.distinct
    requires LimitOf(c, q.clauses) == 0 && OffsetOf(c, q.clauses) == 0
    ensures HeadSection(c, q, columns).sql == [Sym("SELECT"), Sym("COUNT("), Ident("*"), Sym(")")] + NameText(c, "count")
  {
    hide LimitOf, OffsetOf, NameText, One;
    CountUpper();
    assert TopSection(c, 0, 0) == Nothing;
    CountText(NameText(c, "count"));
  }

  lemma {:induction false} CountText(alias: seq<Token>)
    ensures [Sym("SELECT")] + ([] + ([Sym("COUNT(")] + [] + [Ident("*"), Sym(")")] + alias))
         == [Sym("SELECT"), Sym("COUNT("), Ident("*"), Sym(")")] + alias
  {
  }

  lemma {:induction false} CountUpper()
    ensures S.Upper("count") + "(" == "COUNT("
  {
    assert S.Upper("count") == "COUNT";
  }

  lemma {:induction false} CountReads(c: Compiler, outer: Env, q: Query, from: seq<string>, g: Resolved)
    requires AsksCount(q, from, g)
    ensures var s := ReadSections(Unwrapped(EmitQuery(c, outer, q).sql));
      && s.head == [Sym("SELECT"), Sym("COUNT("), Ident("*"), Sym(")")] + NameText(c, "count")
      && s.group == [] && s.having == [] && s.order == [] && s.page == [] && s.combined == []
  {
    var counted := Clause("", Aggregated("count", ["*"]));
    var env := outer + q.variables;
    CountBuilt(c, q, from, g);
    CountSections(c, q, from, g);
    assert NamedJoins(Components(q.clauses, Joins, c.Engine()));
    hide AsksCount, EmitQuery, ReadSections, Unwrapped, Built, NamedJoins, NamedCombines, Components, HeadSection, EmitClauses, TableSection,
      ConditionSection, Emit.Listed, LimitSection, Joined, Chosen, LimitOf, OffsetOf, One, NameText;
    SelectReads(c, outer, q);
    EmptySections(c, env, q);
    CountHead(c, q, EmitClauses(c, env, Chosen(c, q.clauses, Select)));
    NoOrdering(c, q.clauses);
  }

  lemma {:induction false} NoOrdering(c: Compiler, cs: seq<Clause>)
    requires Components(cs, Order, c.Engine()) == []
    ensures W.Ordering(c, cs) == []
  {
  }

  lemma {:induction false} CountSections(c: Compiler, q: Query, from: seq<string>, g: Resolved)
    requires AsksCount(q, from, g)
    ensures var cs, e := q.clauses, c.Engine();
      && One(cs, Aggregate, e) == Some(Clause("", Aggregated("count", ["*"]))) && LimitOf(c, cs) == 0 && OffsetOf(c, cs) == 0
      && Components(cs, Group, e) == [] && Components(cs, Having, e) == [] && Components(cs, Order, e) == [] && Components(cs, Combine, e) == []
      && !Recompiled(c, q)
  {
    CountParts(c, q, from, g, Aggregate);
    OneUnscoped(q.clauses, Aggregate, c.Engine(), Clause("", Aggregated("count", ["*"])));
    hide Components, AsksCount;
    CountParts(c, q, from, g, Limit);
    CountParts(c, q, from, g, Offset);
    CountParts(c, q, from, g, Group);
    CountParts(c, q, from, g, Having);
    CountParts(c, q, from, g, Order);
    CountParts(c, q, from, g, Combine);
    hide FirstScoped;
  }

  lemma {:induction false} CountIs(show: Data -> string, hooks: seq<Hook>, d: QData)
    requires ToQuery(show, hooks, d).Ok? && d.count
    ensures FromThrough(hooks, d.from).Ok? && Resolve(show, hooks, d.filter).Ok?
    ensures AsksCount(ToQuery(show, hooks, d).value, FromThrough(hooks, d.from).value, Resolve(show, hooks, d.filter).value)
  {
    FromChain(hooks, d.from);
    ResolvedReady(show, hooks, d.filter);
    hide Chain, FromThrough, Resolve, Landed, ReadyTree, Problems, FromStages, Includes;
  }

  /** A wire query that counts: it compiles as it is, and its text asks for COUNT(*) of
      the rows and for no column, ordering, grouping or page. */
  lemma {:induction false} ConvertedCounts(show: Data -> string, hooks: seq<Hook>, c: Compiler, outer: Env, d: QData)
    requires ToQuery(show, hooks, d).Ok? && d.count
    ensures var q := ToQuery(show, hooks, d).value; var s := ReadSections(Unwrapped(EmitQuery(c, outer, q).sql));
      && TransformAggregate(q, c.Engine()) == q
      && s.head == [Sym("SELECT"), Sym("COUNT("), Ident("*"), Sym(")")] + NameText(c, "count")
      && s.group == [] && s.having == [] && s.order == [] && s.page == [] && s.combined == []
  {
    var q := ToQuery(show, hooks, d).value;
    CountIs(show, hooks, d);
    hide ToQuery, AsksCount, FromThrough, Resolve, EmitQuery, ReadSections, Unwrapped, TransformAggregate, NameText;
    CountReads(c, outer, q, FromThrough(hooks, d.from).value, Resolve(show, hooks, d.filter).value);
    CountCompilesAsItIs(c, q, FromThrough(hooks, d.from).value, Resolve(show, hooks, d.filter).value);
  }
}
