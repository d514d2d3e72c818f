/** What a printed UPDATE does to the rows of its table, executed with its arguments. */
module UpdateMeaning {
  import opened Ast
  import opened Conditions
  import opened Dialects
  import opened Emit
  import opened Executing
  import opened Keywords
  import opened Placeholders
  import opened Statements
  import B = Building
  import PR = Programs
  import SM = SelectMeaning
  import SS = StatementSoundness
  import V = Validation
  import VM = VerbMeaning

  // ----- rows and assignments ------------------------------------------------------------------

  type Row = map<string, Value>

  /** A database: the truth of printed predicates on a row, and the value of a text
      inlined into the statement. */
  datatype Engine = Engine(reading: Row -> Reading, text: (Row, string) -> Value)

  datatype Source = Given(value: Value) | Inlined(text: string) | Stepped(column: string, up: bool, value: Value)

  datatype Assignment = Assignment(column: string, source: Source)

  /** Adding to a cell that is no number gives null. */
  function Plus(a: Value, n: int): Value { if a.Num? then Num(a.n + n) else Null }

  function Cell(row: Row, column: string): Value { if column in row then row[column] else Null }

  function Denoted(e: Engine, row: Row, source: Source): Value {
    match source
    case Given(value) => value
    case Inlined(text) => e.text(row, text)
    case Stepped(column, up, value) =>
      if value.Num? then Plus(Cell(row, column), if up then value.n else -value.n) else Null
  }

  /** Every assignment is evaluated on the row as it was. */
  function Assigned(e: Engine, row: Row, sets: seq<Assignment>, into: Row): Row {
    if sets == [] then into
    else Assigned(e, row, sets[1..], into[sets[0].column := Denoted(e, row, sets[0].source)])
  }

  // ----- reading an UPDATE ------------------------------------------------------------------------

  datatype Statement = Statement(table: seq<Token>, sets: seq<Assignment>, where: seq<Token>)

  function ReadAssignment(ts: seq<Token>): Option<Assignment> {
    if |ts| < 3 || !ts[0].Ident? || ts[1] != Sym("=") then None
    else if |ts| == 3 && ts[2].LitText? then Some(Assignment(ts[0].name, Inlined(ts[2].text)))
    else if |ts| == 3 && ts[2].Hole? && ts[2].slot.Filled? then Some(Assignment(ts[0].name, Given(ts[2].slot.value)))
    else if |ts| == 5 && ts[2].Ident? && (ts[3] == Sym("+") || ts[3] == Sym("-")) && ts[4].Hole? && ts[4].slot.Filled? then
      Some(Assignment(ts[0].name, Stepped(ts[2].name, ts[3] == Sym("+"), ts[4].slot.value)))
    else None
  }

  function ReadAssignments(items: seq<seq<Token>>): Option<seq<Assignment>> {
    if items == [] then Some([])
    else
      match ReadAssignment(items[0])
      case None => None
      case Some(first) => match ReadAssignments(items[1..]) case None => None case Some(rest) => Some([first] + rest)
  }

  function ReadUpdate(sql: seq<Token>): Option<Statement> {
    if sql == [] || sql[0] != Sym("UPDATE") then None
    else
      var table, rest := UpTo(sql[1..], {"SET"}), Keywords.From(sql[1..], {"SET"});
      if rest == [] then None
      else
        match ReadAssignments(SM.Split(UpTo(rest[1..], {"WHERE"})))
        case None => None
        case Some(sets) => Some(Statement(table, sets, Keywords.From(rest[1..], {"WHERE"})))
  }

  /** A row after the statement; one that does not pass its WHERE stays as it is. */
  function Updated(e: Engine, u: Statement, row: Row): Option<Row> {
    match VM.ReadTruth(e.reading(row), "WHERE", u.where)
    case None => None
    case Some(truth) => Some(if truth == True then Assigned(e, row, u.sets, row) else row)
  }

  // ----- what the clause asks for -------------------------------------------------------------------

  /** The value that a clause gives to a column. */
  function Resolved(env: Env, e: Engine, row: Row, v: Value): Value {
    match v
    case Literal(text) => e.text(row, text)
    case Variable(name) => if name in env then env[name] else Null
    case _ => v
  }

  /** The step that a signed amount takes: the least amount has no opposite, so it is
      bound as it stands and subtracted. */
  function StepOf(amount: int): int { if amount == -TWO_63 then TWO_63 else amount }

  predicate Sized(amount: int) { -TWO_63 <= amount < TWO_63 }

  /** A row is changed as the update clause says: the columns set get their values, an
      increment moves its cell by its amount, and every other column stays. */
  ghost predicate ChangedBy(env: Env, e: Engine, body: Body, row: Row, r: Row)
    requires body.Increment? || body.UpdateSet?
  {
    match body
    case Increment(column, amount) => r == row[column := Plus(Cell(row, column), StepOf(amount))]
    case UpdateSet(columns, values) =>
      && (forall i :: 0 <= i < |columns| && i < |values| && columns[i] !in columns[i + 1..] ==>
            columns[i] in r && r[columns[i]] == Resolved(env, e, row, values[i]))
      && (forall column :: column !in columns ==> (column in r <==> column in row))
      && (forall column :: column !in columns && column in row ==> r[column] == row[column])
      && (forall column :: column in columns ==> column in r)
  }

  // ----- assignments in order -------------------------------------------------------------------------

  lemma {:induction false} AssignedKeeps(e: Engine, row: Row, sets: seq<Assignment>, into: Row, column: string)
    requires forall s <- sets :: s.column != column
    ensures var r := Assigned(e, row, sets, into); (column in r <==> column in into) && (column in into ==> r[column] == into[column])
  {
    if sets != [] { AssignedKeeps(e, row, sets[1..], into[sets[0].column := Denoted(e, row, sets[0].source)], column); }
  }

  lemma {:induction false} AssignedAt(e: Engine, row: Row, sets: seq<Assignment>, into: Row, i: nat)
    requires i < |sets| && forall s <- sets[i + 1..] :: s.column != sets[i].column
    ensures var r := Assigned(e, row, sets, into); sets[i].column in r && r[sets[i].column] == Denoted(e, row, sets[i].source)
  {
    var next := into[sets[0].column := Denoted(e, row, sets[0].source)];
    if i == 0 {
      AssignedKeeps(e, row, sets[1..], next, sets[0].column);
    } else {
      assert sets[1..][i..] == sets[i + 1..];
      AssignedAt(e, row, sets[1..], next, i - 1);
    }
  }

  lemma {:induction false} AssignedIn(e: Engine, row: Row, sets: seq<Assignment>, into: Row, column: string)
    requires column in into || exists s <- sets :: s.column == column
    ensures column in Assigned(e, row, sets, into)
  {
    if sets != [] {
      var next := into[sets[0].column := Denoted(e, row, sets[0].source)];
      assert sets == [sets[0]] + sets[1..];
      AssignedIn(e, row, sets[1..], next, column);
    }
  }

  // ----- reading the printed assignments ----------------------------------------------------------------

  /** The assignments of a set clause. */
  function Sets(env: Env, columns: seq<string>, values: seq<Value>): (sets: seq<Assignment>)
    requires |columns| == |values|
    ensures |sets| == |columns| && forall i :: 0 <= i < |sets| ==> sets[i].column == columns[i]
  {
    if columns == [] then []
    else
      [Assignment(columns[0], match values[0]
                              case Literal(text) => Inlined(text)
                              case Variable(name) => Given(if name in env then env[name] else Null)
                              case v => Given(v))]
      + Sets(env, columns[1..], values[1..])
  }

  predicate Defined(env: Env, values: seq<Value>) { forall v <- values :: v.Variable? ==> v.name in env }

  lemma {:induction false} ValueReads(env: Env, column: string, v: Value)
    requires v.Variable? ==> v.name in env
    ensures var ts := [Ident(column), Sym("=")] + Parameter(env, v).sql;
      && Sym(",") !in ts && (forall t <- ts :: !Opens(t, {"WHERE"}))
      && ReadAssignment(ts) == Some(Sets(env, [column], [v])[0])
  {
    assert "=" != "," && "="[0] != "WHERE"[0];
  }

  lemma {:induction false} SetsRead(env: Env, columns: seq<string>, values: seq<Value>)
    requires |columns| == |values| && Defined(env, values)
    ensures var parts := SetParts(env, columns, values);
      && |parts| == |columns|
      && (forall p <- parts :: Sym(",") !in p.sql && Free(p.sql, {"WHERE"}))
      && ReadAssignments(SM.Texts(parts)) == Some(Sets(env, columns, values))
  {
    hide ReadAssignment;
    if columns == [] {
      assert SM.Texts(SetParts(env, columns, values)) == [];
    } else {
      ValueReads(env, columns[0], values[0]);
      SetsRead(env, columns[1..], values[1..]);
      var first := Cat(Text([Ident(columns[0]), Sym("=")]), Parameter(env, values[0]));
      var rest := SetParts(env, columns[1..], values[1..]);
      assert SetParts(env, columns, values) == [first] + rest;
      assert SM.Texts([first] + rest) == [first.sql] + SM.Texts(rest);
      assert ([first.sql] + SM.Texts(rest))[1..] == SM.Texts(rest);
      assert Sets(env, [columns[0]], [values[0]])[0] == Sets(env, columns, values)[0];
    }
  }

  /** The assignments of an update clause. */
  function SetsOf(env: Env, body: Body): seq<Assignment>
    requires body.Increment? || (body.UpdateSet? && |body.columns| == |body.values|)
  {
    match body
    case Increment(column, amount) =>
      [Assignment(column, Stepped(column, amount >= 0, Num(if amount < 0 then Int64(-amount) else amount)))]
    case UpdateSet(columns, values) => Sets(env, columns, values)
  }

  predicate Settable(env: Env, body: Body) {
    body.Increment? || (body.UpdateSet? && |body.columns| == |body.values| > 0 && Defined(env, body.values))
  }

  lemma {:induction false} SectionReads(env: Env, body: Body)
    requires Settable(env, body)
    ensures var sql := SetSection(env, body).sql;
      Free(sql, {"WHERE"}) && ReadAssignments(SM.Split(sql)) == Some(SetsOf(env, body))
  {
    hide SM.Split, Sets;
    match body
    case Increment(column, amount) => StepReads(column, amount);
    case UpdateSet(columns, values) =>
      var parts := SetParts(env, columns, values);
      SetsRead(env, columns, values);
      SM.SplitJoined(parts);
      assert "," != "WHERE" by { assert ","[0] != "WHERE"[0]; }
      FreeJoined(parts, ",", {"WHERE"});
  }

  lemma {:induction false} StepReads(column: string, amount: int)
    ensures var sql := IncrementOut(column, amount).sql;
      Free(sql, {"WHERE"}) && ReadAssignments(SM.Split(sql)) ==
        Some([Assignment(column, Stepped(column, amount >= 0, Num(if amount < 0 then Int64(-amount) else amount)))])
  {
    hide Int64;
    var sign := if amount < 0 then "-" else "+";
    var n := if amount < 0 then Int64(-amount) else amount;
    var sql := IncrementOut(column, amount).sql;
    assert sql == [Ident(column), Sym("="), Ident(column), Sym(sign), Hole(Filled(Num(n)))];
    StepTokens(column, sign, n);
    SM.SplitItem(sql, []);
    hide SM.Split, ReadAssignment;
    assert [sql][1..] == [];
    assert ReadAssignments([sql][1..]) == Some([]);
    assert "+"[0] != "-"[0];
    var step := Assignment(column, Stepped(column, amount >= 0, Num(n)));
    assert [step] + [] == [step];
  }

  lemma {:induction false} StepTokens(column: string, sign: string, n: int)
    requires sign == "+" || sign == "-"
    ensures var sql := [Ident(column), Sym("="), Ident(column), Sym(sign), Hole(Filled(Num(n)))];
      && Free(sql, {"WHERE"}) && Sym(",") !in sql
      && ReadAssignment(sql) == Some(Assignment(column, Stepped(column, sign == "+", Num(n))))
  {
    assert "+"[0] != "WHERE"[0] && "-"[0] != "WHERE"[0] && "="[0] != "WHERE"[0];
    assert "+"[0] != ","[0] && "-"[0] != ","[0] && "="[0] != ","[0];
  }

  // ----- the effect on a row -----------------------------------------------------------------------------

  lemma {:induction false} SetsChange(env: Env, e: Engine, body: Body, row: Row)
    requires Settable(env, body) && (body.Increment? ==> Sized(body.amount))
    ensures ChangedBy(env, e, body, row, Assigned(e, row, SetsOf(env, body), row))
  {
    match body
    case Increment(column, amount) =>
      StepIs(amount);
      assert SetsOf(env, body)[1..] == [];
    case UpdateSet(columns, values) => ColumnsChange(env, e, columns, values, row);
  }

  lemma {:induction false} ColumnsChange(env: Env, e: Engine, columns: seq<string>, values: seq<Value>, row: Row)
    requires |columns| == |values|
    ensures ChangedBy(env, e, UpdateSet(columns, values), row, Assigned(e, row, Sets(env, columns, values), row))
  {
    var sets := Sets(env, columns, values);
    hide Assigned, Sets, Denoted, Resolved;
    forall i | 0 <= i < |columns| && columns[i] !in columns[i + 1..]
      ensures columns[i] in Assigned(e, row, sets, row) && Assigned(e, row, sets, row)[columns[i]] == Resolved(env, e, row, values[i])
    {
      SetAt(env, e, row, columns, values, i);
      LaterColumns(sets, columns, i);
      AssignedAt(e, row, sets, row, i);
    }
    OthersStay(env, e, columns, values, row);
  }

  lemma {:induction false} OthersStay(env: Env, e: Engine, columns: seq<string>, values: seq<Value>, row: Row)
    requires |columns| == |values|
    ensures var r := Assigned(e, row, Sets(env, columns, values), row);
      && (forall column :: column !in columns ==> (column in r <==> column in row))
      && (forall column :: column !in columns && column in row ==> r[column] == row[column])
      && (forall column :: column in columns ==> column in r)
  {
    var sets := Sets(env, columns, values);
    hide Assigned, Sets, Denoted;
    forall column | column !in columns
      ensures var r := Assigned(e, row, sets, row); (column in r <==> column in row) && (column in row ==> r[column] == row[column])
    {
      AssignedKeeps(e, row, sets, row, column);
    }
    forall column | column in columns ensures column in Assigned(e, row, sets, row) {
      var i :| 0 <= i < |columns| && columns[i] == column;
      assert sets[i] in sets && sets[i].column == column;
      AssignedIn(e, row, sets, row, column);
    }
  }

  lemma {:induction false} LaterColumns(sets: seq<Assignment>, columns: seq<string>, i: nat)
    requires |sets| == |columns| && i < |columns| && columns[i] !in columns[i + 1..]
    requires forall j :: 0 <= j < |sets| ==> sets[j].column == columns[j]
    ensures forall s <- sets[i + 1..] :: s.column != sets[i].column
  {
    forall s | s in sets[i + 1..] ensures s.column != columns[i] {
      var j :| 0 <= j < |sets[i + 1..]| && sets[i + 1..][j] == s;
      assert columns[i + 1..][j] == s.column;
    }
  }

  lemma {:induction false} SetAt(env: Env, e: Engine, row: Row, columns: seq<string>, values: seq<Value>, i: nat)
    requires |columns| == |values| && i < |columns|
    ensures Denoted(e, row, Sets(env, columns, values)[i].source) == Resolved(env, e, row, values[i])
  {
    if i > 0 { SetAt(env, e, row, columns[1..], values[1..], i - 1); }
  }

  lemma {:induction false} StepIs(amount: int)
    requires Sized(amount)
    ensures var n := if amount < 0 then Int64(-amount) else amount; (if amount >= 0 then n else -n) == StepOf(amount)
  {
  }

  /** An increment adds its amount to a number, except the least amount, which it
      subtracts instead. */
  lemma {:induction false} IncrementIsExact(cell: int, amount: int)
    requires Sized(amount)
    ensures Plus(Num(cell), StepOf(amount)) == Num(cell + amount) <==> amount != -TWO_63
    ensures amount == -TWO_63 ==> Plus(Num(cell), StepOf(amount)) == Num(cell - amount)
  {
  }

  // ----- the whole statement -------------------------------------------------------------------------------

  lemma {:induction false} UpdatePrints(c: Compiler, env: Env, cs: seq<Clause>, body: Body)
    requires One(cs, Update, c.Engine()).Some? && One(cs, Update, c.Engine()).value.body == body && (body.Increment? || body.UpdateSet?)
    ensures EmitUpdate(c, env, cs).sql == [Sym("UPDATE")] + (WriteTable(c, cs).sql
      + ([Sym("SET")] + (SetSection(env, body).sql + WhereSection(c, env, cs).sql)))
  {
    hide WriteTable, SetSection, WhereSection, One;
  }

  lemma {:induction false} TableIsFree(c: Compiler, cs: seq<Clause>)
    ensures Free(WriteTable(c, cs).sql, {"SET"})
  {
    hide One, ExpressionTokens;
  }

  lemma {:induction false} StatementReads(table: seq<Token>, sets: seq<Token>, where: seq<Token>)
    requires Free(table, {"SET"}) && Free(sets, {"WHERE"}) && (where == [] || where[0] == Sym("WHERE"))
    ensures ReadUpdate([Sym("UPDATE")] + (table + ([Sym("SET")] + (sets + where)))) ==
      match ReadAssignments(SM.Split(sets)) case None => None case Some(found) => Some(Statement(table, found, where))
  {
    hide Free, SM.Split, ReadAssignments;
    var rest := [Sym("SET")] + (sets + where);
    var sql := [Sym("UPDATE")] + (table + rest);
    assert sql[1..] == table + rest && rest[1..] == sets + where;
    assert where == [] || Opens(where[0], {"WHERE"});
    assert Opens(rest[0], {"SET"});
    SplitsAt(table, rest, {"SET"});
    SplitsAt(sets, where, {"WHERE"});
  }

  /** The update clause that an accepted update carries. */
  lemma {:induction false} AcceptedUpdate(c: Compiler, q: Query)
    requires Built(q.clauses) && V.Accepts(c, q) && SS.VerbKept(q) && q.verb == MethodUpdate
    ensures var cl := One(q.clauses, Update, c.Engine()); cl.Some? && Settable(q.variables, cl.value.body)
  {
    V.ScopeAccepted(c, q.clauses, false, q.variables);
    hide V.ScopeProblems, V.ScopeOk, V.ClauseOk, Built, Components, One;
    assert V.UpdateProblems(c, q.clauses) == [];
    SS.UpdateOk(c, q.clauses, q.variables);
    SettableOk(c, One(q.clauses, Update, c.Engine()).value, q.variables);
  }

  lemma {:induction false} SettableOk(c: Compiler, cl: Clause, env: Env)
    requires V.ClauseOk(c, cl, env)
    requires cl.body.Increment? || (cl.body.UpdateSet? && V.ValuesProblems(cl.body.columns, cl.body.values) == [])
    ensures Settable(env, cl.body)
  {
    hide V.ScopeProblems, V.ConditionOk, V.CteOk;
  }

  /** Every accepted update whose placeholders stand for its arguments, executed: its rows that pass the WHERE
      change as its update clause says, the others not at all. */
  lemma {:induction false} UpdateMeans(c: Compiler, q: Query, e: Engine, row: Row)
    requires Built(q.clauses) && V.Accepts(c, q) && SS.VerbKept(q) && q.verb == MethodUpdate
    requires Aligned(Emitted(c, q)) && Lawful(e.reading(row))
    requires var body := One(q.clauses, Update, c.Engine()).value.body; body.Increment? ==> Sized(body.amount)
    ensures var u := ReadUpdate(Executed(c, q));
      var body := One(q.clauses, Update, c.Engine()).value.body;
      var passes := VM.Passes(Items(c, q.variables, e.reading(row), Components(q.clauses, Where, c.Engine())));
      && (body.Increment? || body.UpdateSet?)
      && u.Some? && u.value.table == WriteTable(c, q.clauses).sql
      && Updated(e, u.value, row).Some?
      && (passes == True ==> ChangedBy(q.variables, e, body, row, Updated(e, u.value, row).value))
      && (passes != True ==> Updated(e, u.value, row).value == row)
  {
    var cs, env := q.clauses, q.variables;
    var body := One(cs, Update, c.Engine()).value.body;
    AcceptedUpdate(c, q);
    hide V.Accepts, SS.VerbKept, Built, EmitUpdate, WriteTable, SetSection, Settable, Aligned, Emitted, Executed,
      ReadUpdate, Components, One, VM.Passes, Items, Updated, ChangedBy, Lawful;
    ExecutedIs(c, q);
    UpdateReads(c, env, cs, body);
    EffectIs(c, env, cs, e, body, row);
  }

  lemma {:induction false} UpdateReads(c: Compiler, env: Env, cs: seq<Clause>, body: Body)
    requires One(cs, Update, c.Engine()).Some? && One(cs, Update, c.Engine()).value.body == body && Settable(env, body)
    ensures ReadUpdate(EmitUpdate(c, env, cs).sql) ==
      Some(Statement(WriteTable(c, cs).sql, SetsOf(env, body), WhereSection(c, env, cs).sql))
  {
    UpdatePrints(c, env, cs, body);
    TableIsFree(c, cs);
    SectionReads(env, body);
    WhereStarts(c, env, cs);
    hide EmitUpdate, WriteTable, SetSection, SetsOf, WhereSection, ReadUpdate, SM.Split, ReadAssignments, Free, One, Settable;
    StatementReads(WriteTable(c, cs).sql, SetSection(env, body).sql, WhereSection(c, env, cs).sql);
  }

  lemma {:induction false} WhereStarts(c: Compiler, env: Env, cs: seq<Clause>)
    ensures var sql := WhereSection(c, env, cs).sql; sql == [] || sql[0] == Sym("WHERE")
  {
    hide Connect, EmitClauses, Chosen;
  }

  lemma {:induction false} EffectIs(c: Compiler, env: Env, cs: seq<Clause>, e: Engine, body: Body, row: Row)
    requires Built(cs) && Lawful(e.reading(row)) && Settable(env, body) && (body.Increment? ==> Sized(body.amount))
    ensures var u := Statement(WriteTable(c, cs).sql, SetsOf(env, body), WhereSection(c, env, cs).sql);
      var passes := VM.Passes(Items(c, env, e.reading(row), Components(cs, Where, c.Engine())));
      && Updated(e, u, row).Some?
      && (passes == True ==> ChangedBy(env, e, body, row, Updated(e, u, row).value))
      && (passes != True ==> Updated(e, u, row).value == row)
  {
    VM.SectionReads(c, env, e.reading(row), cs, Where, "WHERE");
    WhereIs(c, env, cs);
    SetsChange(env, e, body, row);
    hide WriteTable, SetsOf, WhereSection, Built, Lawful, Settable, VM.Passes, Items, Components, ChangedBy, Assigned, VM.ReadTruth,
      EmitClauses, ConditionSection;
  }

  lemma {:induction false} WhereIs(c: Compiler, env: Env, cs: seq<Clause>)
    ensures var list := Components(cs, Where, c.Engine());
      WhereSection(c, env, cs).sql == ConditionSection("WHERE", list, EmitClauses(c, env, list)).sql
  {
    hide ConditionSection, EmitClauses, Components;
  }

  /** The same for whole programs: the rows changed are those for which the condition
      verbs ask. */
  lemma {:induction false} ProgramUpdates(c: Compiler, program: seq<B.Step>, e: Engine, row: Row)
    requires B.AllLegal(program) && Lawful(e.reading(row))
    requires var q := B.Run(EmptyQuery, program);
      && V.Accepts(c, q) && q.verb == MethodUpdate && Aligned(Emitted(c, q))
      && (var cl := One(q.clauses, Update, c.Engine()); cl.Some? && cl.value.body.Increment? ==> Sized(cl.value.body.amount))
    ensures var q := B.Run(EmptyQuery, program); var u := ReadUpdate(Executed(c, q));
      && One(q.clauses, Update, c.Engine()).Some? && u.Some? && Updated(e, u.value, row).Some?
      && (var body := One(q.clauses, Update, c.Engine()).value.body;
          && (body.Increment? || body.UpdateSet?)
          && if VM.Asks(c, q.variables, e.reading(row), Where, program) == True
             then ChangedBy(q.variables, e, body, row, Updated(e, u.value, row).value)
             else Updated(e, u.value, row).value == row)
  {
    var q := B.Run(EmptyQuery, program);
    PR.ProgramsAreBuilt(program);
    AcceptedUpdate(c, q);
    hide B.Run, B.AllLegal, V.Accepts, Built, Aligned, Emitted, Executed, ReadUpdate, Components, One, VM.Passes, VM.Asks, Items, Updated,
      ChangedBy, Lawful, SS.VerbKept, Settable;
    UpdateMeans(c, q, e, row);
    VM.ProgramAsks(c, q.variables, e.reading(row), Where, program);
  }
}
