/** The builder on the heap: queries and clauses are objects, value and column lists
    are arrays, and Clone makes a copy that shares none of them. */
module Builder {
  import opened Ast
  import B = Building
  import St = Statements

  // ----- clause values from fields ---------------------------------------------------------------

  function Child(child: Option<Query>): Query { if child.Some? then child.value else EmptyQuery }

  /** The clause that a clause object stands for: the fields without references
      (`form`), with what its other fields hold put in place. */
  function BodyOf(form: Body, section: Component, or: bool, not: bool, values: seq<Value>, names: seq<string>,
                  rows: seq<seq<Value>>, child: Option<Query>, members: seq<Clause>): Body
  {
    match form
    case FromRaw(raw) => FromRaw(Raw(raw.expression, values))
    case FromQuery(_) => FromQuery(Child(child))
    case RawColumn(of, raw) => RawColumn(of, Raw(raw.expression, values))
    case QueryColumn(_) => QueryColumn(Child(child))
    case AggregateColumn(aggregate, column, _) => AggregateColumn(aggregate, column, child)
    case Join(kind, _) => Join(kind, members)
    case Condition(_, _, _, shape) => Condition(section, or, not, ShapeOf(shape, values, child))
    case OrderRaw(raw) => OrderRaw(Raw(raw.expression, values))
    case Aggregated(kind, _) => Aggregated(kind, names)
    case CombineQuery(operation, all, _) => CombineQuery(operation, all, Child(child))
    case CombineRaw(raw) => CombineRaw(Raw(raw.expression, values))
    case QueryCte(alias, _) => QueryCte(alias, Child(child))
    case RawCte(alias, raw) => RawCte(alias, Raw(raw.expression, values))
    case TableCte(alias, _, _) => TableCte(alias, names, rows)
    case InsertRow(_, _, returnId) => InsertRow(names, values, returnId)
    case InsertQuery(_, _) => InsertQuery(names, Child(child))
    case UpdateSet(_, _) => UpdateSet(names, values)
    case OnConflict(_) => OnConflict(names)
    case _ => form
  }

  function ShapeOf(shape: Shape, values: seq<Value>, child: Option<Query>): Shape {
    match shape
    case RawCondition(raw) => RawCondition(Raw(raw.expression, values))
    case In(column, _) => In(column, values)
    case InQuery(column, _) => InQuery(column, Child(child))
    case SubQuery(_, op, value) => SubQuery(Child(child), op, value)
    case Exists(_) => Exists(Child(child))
    case Nested(_) => Nested(Child(child))
    case _ => shape
  }

  // ----- clause objects ------------------------------------------------------------------------------

  lemma {:induction false} StampedBody(form: Body, section: Component, or: bool, not: bool, values: seq<Value>,
                                       names: seq<string>, rows: seq<seq<Value>>, child: Option<Query>, members: seq<Clause>)
    requires form.Condition?
    ensures BodyOf(form, section, or, not, values, names, rows, child, members)
      == Condition(section, or, not, ShapeOf(form.shape, values, child))
  {
    hide ShapeOf;
  }

  /** One class for all clause shapes.  A join is a clause with members and a
      condition face, whose host is the join itself. */
  class ClauseObject {
    var engine: string
    var section: Component
    var or: bool
    var not: bool
    var form: Body
    var values: array<Value>
    var names: array<string>
    var rows: seq<array<Value>>
    var child: QueryObject?
    var members: seq<ClauseObject>
    var self: ClauseObject?
    ghost var Repr: set<object>

    ghost predicate Valid()
      reads this, Repr
      decreases Repr, 0
      ensures Valid() ==> this in Repr
    {
      && this in Repr && values in Repr && names in Repr
      && (forall row <- rows :: row in Repr)
      && (child != null ==> child in Repr && child.Repr <= Repr && this !in child.Repr && child.Valid())
      && (forall m <- members :: m in Repr && m.Repr <= Repr && this !in m.Repr && m.Valid())
      && self == this
    }

    ghost function ChildAbs(): Option<Query>
      requires Valid()
      reads this, Repr
      decreases Repr, 0
    {
      if child == null then None else Some(child.Abs())
    }

    ghost function Abs(): Clause
      requires Valid()
      reads this, Repr
      decreases Repr, 1
    {
      Clause(engine, BodyOf(form, section, or, not, values[..], names[..], RowValues(), ChildAbs(), Values()))
    }

    ghost function Values(): (cs: seq<Clause>)
      requires Valid()
      reads this, Repr
      decreases Repr, 0
      ensures |cs| == |members| && forall i :: 0 <= i < |cs| ==> cs[i] == members[i].Abs()
    {
      AbsAll(members, Repr - {this})
    }

    ghost function RowValues(): (r: seq<seq<Value>>)
      requires Valid()
      reads this, Repr
      ensures |r| == |rows| && forall i :: 0 <= i < |r| ==> r[i] == rows[i][..]
    {
      Rows(rows, Repr)
    }

    /** The fields of a clause object, given its lists; `inside` is what they hold. */
    constructor (engine: string, section: Component, or: bool, not: bool, form: Body, values: array<Value>,
                 names: array<string>, rows: seq<array<Value>>, child: QueryObject?, members: seq<ClauseObject>,
                 ghost inside: set<object>)
      requires values in inside && names in inside && forall row <- rows :: row in inside
      requires child != null ==> child.Valid() && child.Repr <= inside
      requires forall m <- members :: m.Valid() && m.Repr <= inside
      ensures Valid() && fresh(this) && Repr == inside + {this}
      ensures this.engine == engine && this.section == section && this.or == or && this.not == not && this.form == form
      ensures this.values == values && this.names == names && this.rows == rows && this.child == child && this.members == members
    {
      this.engine, this.section, this.or, this.not, this.form := engine, section, or, not, form;
      this.values, this.names, this.rows, this.child, this.members := values, names, rows, child, members;
      self := this;
      Repr := inside + {this};
    }

    /** The section the clause belongs to. */
    function TagOf(): Component
      reads this
    {
      if form.Condition? then section else Tag(Clause("", form))
    }

    lemma {:induction false} TagIs()
      requires Valid()
      ensures Tag(Abs()) == TagOf() && Abs().engine == engine
    {
      hide AbsAll, Rows;
    }

    method SetEngine(e: string)
      requires Valid()
      modifies `engine
      ensures Valid() && Repr == old(Repr) && Abs() == Clause(e, old(Abs()).body)
    {
      hide AbsAll, Rows, QueryObject.Abs, BodyOf;
      engine := e;
      assert Values() == old(Values()) && RowValues() == old(RowValues());
    }

    /** The connective flags and the section, stamped by the condition face. */
    method Stamp(section: Component, or: bool, not: bool)
      requires Valid() && form.Condition?
      modifies `section, `or, `not
      ensures Valid() && Repr == old(Repr)
      ensures Abs().engine == old(Abs()).engine && old(Abs()).body.Condition?
      ensures Abs().body == Condition(section, or, not, old(Abs()).body.shape)
    {
      hide AbsAll, Rows, QueryObject.Abs, ShapeOf, BodyOf;
      StampedBody(form, this.section, this.or, this.not, values[..], names[..], RowValues(), ChildAbs(), Values());
      StampedBody(form, section, or, not, values[..], names[..], RowValues(), ChildAbs(), Values());
      this.section, this.or, this.not := section, or, not;
      assert Values() == old(Values()) && RowValues() == old(RowValues());
    }

    /** A join's face appends to the join it belongs to. */
    method AddMember(cl: ClauseObject)
      requires Valid() && cl.Valid() && this !in cl.Repr
      modifies this
      ensures Valid() && Repr == old(Repr) + cl.Repr
      ensures form == old(form) && engine == old(engine) && Values() == old(Values()) + [cl.Abs()]
    {
      hide AbsAll, Rows, QueryObject.Abs, ClauseObject.Abs;
      var host := self;
      host.members := host.members + [cl];
      host.Repr := host.Repr + cl.Repr;
    }

    /** A deep copy: the struct copied, then every list, the embedded query and the
        members replaced by copies, and the face's host by the copy. */
    method Clone() returns (c: ClauseObject)
      requires Valid()
      ensures c.Valid() && fresh(c.Repr) && c.Abs() == Abs()
      decreases Repr, 2
    {
      hide AbsAll, Rows, ClauseObject.Abs, ClauseObject.Values, ClauseObject.RowValues, ClauseObject.ChildAbs, QueryObject.Abs,
        QueryObject.Valid, BodyOf, Union;
      var values', names', rows', child', members', inside := CopyLists();
      c := new ClauseObject(engine, section, or, not, form, values', names', rows', child', members', inside);
      SameParts(c);
    }

    /** Copies of everything the clause object holds. */
    method CopyLists() returns (values': array<Value>, names': array<string>, rows': seq<array<Value>>, child': QueryObject?,
                                members': seq<ClauseObject>, ghost inside: set<object>)
      requires Valid()
      ensures fresh(inside) && values' in inside && names' in inside && (forall row <- rows' :: row in inside)
      ensures values'[..] == values[..] && names'[..] == names[..]
      ensures |rows'| == |rows| && forall i :: 0 <= i < |rows| ==> rows'[i][..] == rows[i][..]
      ensures child' != null ==> child'.Valid() && child'.Repr <= inside
      ensures (child' == null <==> child == null) && (child != null ==> child'.Abs() == child.Abs())
      ensures |members'| == |members| && forall m <- members' :: m.Valid() && m.Repr <= inside
      ensures forall i :: 0 <= i < |members| ==> members'[i].Abs() == members[i].Abs()
      decreases Repr, 1
    {
      hide AbsAll, Rows, ClauseObject.Abs, QueryObject.Abs, QueryObject.Valid, BodyOf;
      ghost var own;
      values', names', rows', own := CopyArrays();
      child' := CopyChild();
      inside := own + (if child' == null then {} else child'.Repr);
      members' := CloneAll(members, Repr - {this});
      inside := inside + Union(members');
    }

    method CopyArrays() returns (values': array<Value>, names': array<string>, rows': seq<array<Value>>, ghost inside: set<object>)
      requires Valid()
      ensures fresh(inside) && values' in inside && names' in inside && (forall row <- rows' :: row in inside)
      ensures values'[..] == values[..] && names'[..] == names[..]
      ensures |rows'| == |rows| && forall i :: 0 <= i < |rows| ==> rows'[i][..] == rows[i][..]
    {
      hide QueryObject.Valid;
      values' := CopyArray(values);
      names' := CopyArray(names);
      rows' := CopyRows(rows, Repr);
      inside := {values', names'} + (set r <- rows' :: r as object);
    }

    method CopyChild() returns (copy: QueryObject?)
      requires Valid()
      ensures copy != null ==> copy.Valid() && fresh(copy.Repr)
      ensures copy == null <==> child == null
      ensures child != null ==> copy.Abs() == child.Abs()
      decreases Repr, 0
    {
      hide QueryObject.Abs, ClauseObject.Abs;
      copy := null;
      if child != null { copy := child.Clone(); }
    }

    lemma {:induction false} SameParts(c: ClauseObject)
      requires Valid() && c.Valid()
      requires c.engine == engine && c.section == section && c.or == or && c.not == not && c.form == form
      requires c.values[..] == values[..] && c.names[..] == names[..]
      requires |c.rows| == |rows| && forall i :: 0 <= i < |rows| ==> c.rows[i][..] == rows[i][..]
      requires (c.child == null <==> child == null) && (child != null ==> c.child.Abs() == child.Abs())
      requires |c.members| == |members| && forall i :: 0 <= i < |members| ==> c.members[i].Abs() == members[i].Abs()
      ensures c.Abs() == Abs()
    {
      hide AbsAll, Rows, BodyOf, QueryObject.Abs;
      assert c.Values() == Values();
      assert c.RowValues() == RowValues();
    }
  }

  method CopyArray<T(0)>(a: array<T>) returns (b: array<T>)
    ensures fresh(b) && b[..] == a[..]
  {
    b := new T[a.Length](i requires 0 <= i < a.Length reads a => a[i]);
  }

  method CopyRows(rows: seq<array<Value>>, ghost R: set<object>) returns (copies: seq<array<Value>>)
    requires forall row <- rows :: row in R
    ensures |copies| == |rows| && (forall c <- copies :: fresh(c))
    ensures forall i :: 0 <= i < |rows| ==> copies[i][..] == rows[i][..]
  {
    copies := [];
    for i := 0 to |rows|
      invariant |copies| == i && forall c <- copies :: fresh(c)
      invariant forall j :: 0 <= j < i ==> copies[j][..] == rows[j][..]
    {
      var copy := CopyArray(rows[i]);
      copies := copies + [copy];
    }
  }

  /** All objects of a list of clause objects. */
  ghost function Union(cs: seq<ClauseObject>): set<object>
    reads cs
  {
    set cl <- cs, o <- cl.Repr :: o
  }

  method CloneAll(cs: seq<ClauseObject>, ghost R: set<object>) returns (copies: seq<ClauseObject>)
    requires forall cl <- cs :: cl in R && cl.Repr <= R && cl.Valid()
    ensures |copies| == |cs| && forall c <- copies :: c.Valid() && fresh(c.Repr)
    ensures forall i :: 0 <= i < |cs| ==> copies[i].Abs() == cs[i].Abs()
    decreases R, |cs| + 2
  {
    hide ClauseObject.Abs, ClauseObject.Valid;
    copies := [];
    for i := 0 to |cs|
      invariant |copies| == i && forall c <- copies :: c.Valid() && fresh(c.Repr)
      invariant forall j :: 0 <= j < i ==> copies[j].Abs() == cs[j].Abs()
    {
      var copy := cs[i].Clone();
      copies := copies + [copy];
    }
  }

  ghost function Rows(rows: seq<array<Value>>, R: set<object>): (r: seq<seq<Value>>)
    requires forall row <- rows :: row in R
    reads R
    ensures |r| == |rows| && forall i :: 0 <= i < |r| ==> r[i] == rows[i][..]
  {
    if rows == [] then [] else [rows[0][..]] + Rows(rows[1..], R)
  }

  ghost function AbsAll(cs: seq<ClauseObject>, R: set<object>): (r: seq<Clause>)
    requires forall cl <- cs :: cl in R && cl.Repr <= R && cl.Valid()
    reads R
    decreases R, 2 + |cs|
    ensures |r| == |cs| && forall i :: 0 <= i < |r| ==> r[i] == cs[i].Abs()
  {
    if cs == [] then [] else [cs[0].Abs()] + AbsAll(cs[1..], R)
  }

  lemma {:induction false} ComponentsNext(cs: seq<Clause>, i: nat, of: Component, engine: string)
    requires i < |cs|
    ensures Components(cs[..i + 1], of, engine) ==
      Components(cs[..i], of, engine) + (if Tag(cs[i]) == of && Visible(cs[i], engine) then [cs[i]] else [])
  {
    ComponentsConcat(cs[..i], [cs[i]], of, engine);
    assert cs[..i + 1] == cs[..i] + [cs[i]];
    assert [cs[i]][1..] == [];
  }

  lemma {:induction false} WithoutNext(cs: seq<Clause>, i: nat, of: set<Component>)
    requires i < |cs|
    ensures Without(cs[..i + 1], of) == Without(cs[..i], of) + (if Tag(cs[i]) in of then [] else [cs[i]])
  {
    WithoutConcat(cs[..i], [cs[i]], of);
    assert cs[..i + 1] == cs[..i] + [cs[i]];
    assert [cs[i]][1..] == [];
  }

  lemma {:induction false} WithoutConcat(a: seq<Clause>, b: seq<Clause>, of: set<Component>)
    ensures Without(a + b, of) == Without(a, of) + Without(b, of)
  {
    hide Tag;
    if a == [] {
      assert a + b == b;
    } else {
      assert (a + b)[1..] == a[1..] + b;
      WithoutConcat(a[1..], b, of);
      var rest := Without(a[1..], of);
      assert [a[0]] + (rest + Without(b, of)) == ([a[0]] + rest) + Without(b, of);
    }
  }

  /** The first clause object of a list with exactly this engine scope. */
  method FirstWith(visible: seq<ClauseObject>, engine: string, ghost cs: seq<Clause>) returns (first: ClauseObject?)
    requires |visible| == |cs| && forall i :: 0 <= i < |cs| ==> visible[i].Valid() && visible[i].Abs() == cs[i]
    ensures first != null ==> first in visible && first.Valid() && FirstScoped(cs, engine) == Some(first.Abs())
    ensures first == null ==> FirstScoped(cs, engine).None?
  {
    hide ClauseObject.Valid, AbsAll;
    assert cs[0..] == cs;
    for i := 0 to |visible|
      invariant FirstScoped(cs[i..], engine) == FirstScoped(cs, engine)
    {
      assert cs[i..][0] == cs[i] && cs[i..][1..] == cs[i + 1..];
      visible[i].TagIs();
      if visible[i].engine == engine { return visible[i]; }
    }
    assert cs[|cs|..] == [];
    return null;
  }

  lemma {:induction false} OutsideNext(cs: seq<Clause>, i: nat, of: Component, engine: string)
    requires i < |cs|
    ensures B.Outside(cs[..i + 1], of, engine) ==
      B.Outside(cs[..i], of, engine) + (if Tag(cs[i]) == of && cs[i].engine == engine then [] else [cs[i]])
  {
    OutsideConcat(cs[..i], [cs[i]], of, engine);
    assert cs[..i + 1] == cs[..i] + [cs[i]];
    assert [cs[i]][1..] == [];
  }

  lemma {:induction false} OutsideConcat(a: seq<Clause>, b: seq<Clause>, of: Component, engine: string)
    ensures B.Outside(a + b, of, engine) == B.Outside(a, of, engine) + B.Outside(b, of, engine)
  {
    hide Tag;
    if a == [] {
      assert a + b == b;
    } else {
      assert (a + b)[1..] == a[1..] + b;
      OutsideConcat(a[1..], b, of, engine);
      var head := if Tag(a[0]) == of && a[0].engine == engine then [] else [a[0]];
      var rest := B.Outside(a[1..], of, engine);
      assert head + (rest + B.Outside(b, of, engine)) == (head + rest) + B.Outside(b, of, engine);
    }
  }

  // ----- query objects ---------------------------------------------------------------------------------

  /** The table of a query's variables, shared by reference until it is cloned. */
  class Table {
    var entries: map<string, Value>

    constructor ()
      ensures entries == map[]
    {
      entries := map[];
    }

    method Define(name: string, value: Value)
      modifies this
      ensures entries == old(entries)[name := value]
    {
      entries := entries[name := value];
    }

    method Clone() returns (copy: Table)
      ensures fresh(copy) && copy.entries == entries
    {
      copy := new Table();
      copy.entries := entries;
    }
  }

  /** A query with its two condition faces: each writes to the clauses of its host,
      which must be the query itself. */
  class QueryObject {
    var whereSelf: QueryObject?
    var havingSelf: QueryObject?
    var clauses: seq<ClauseObject>
    var engineScope: string
    var verb: Method
    var alias: string
    var distinct: bool
    var comment: string
    var table: Table
    ghost var Repr: set<object>

    ghost predicate Valid()
      reads this, Repr
      decreases Repr, 0
      ensures Valid() ==> this in Repr
    {
      && this in Repr && table in Repr && whereSelf == this && havingSelf == this
      && forall cl <- clauses :: cl in Repr && cl.Repr <= Repr && this !in cl.Repr && table !in cl.Repr && cl.Valid()
    }

    ghost function Abs(): Query
      requires Valid()
      reads this, Repr
      decreases Repr, 1
    {
      Query(Values(), engineScope, verb, alias, distinct, comment, table.entries)
    }

    /** The clauses the clause objects stand for. */
    ghost function Values(): (cs: seq<Clause>)
      requires Valid()
      reads this, Repr
      decreases Repr, 0
      ensures |cs| == |clauses| && forall i :: 0 <= i < |cs| ==> cs[i] == clauses[i].Abs()
    {
      AbsAll(clauses, Repr - {this})
    }

    constructor ()
      ensures Valid() && fresh(Repr) && Repr == {this, table} && Abs() == EmptyQuery
    {
      whereSelf, havingSelf := this, this;
      clauses, engineScope, verb, alias, distinct, comment := [], "", MethodSelect, "", false, "";
      table := new Table();
      Repr := {this, table};
    }

    method AddClause(cl: ClauseObject)
      requires Valid() && cl.Valid() && this !in cl.Repr && table !in cl.Repr && cl !in Repr
      modifies this, cl`engine
      ensures Valid() && table == old(table) && Repr == old(Repr) + cl.Repr
      ensures Abs() == B.AddClause(old(Abs()), old(cl.Abs()).body)
    {
      hide AbsAll, ClauseObject.Abs, ClauseObject.Valid;
      cl.SetEngine(engineScope);
      assert Values() == old(Values());
      Append(cl);
    }

    /** A condition face writes to its host. */
    method AddCondition(section: Component, or: bool, not: bool, cl: ClauseObject)
      requires Valid() && cl.Valid() && this !in cl.Repr && table !in cl.Repr && cl !in Repr && cl.form.Condition?
      modifies this, cl
      ensures Valid() && table == old(table) && Repr == old(Repr) + cl.Repr && cl.Repr == old(cl.Repr) && old(cl.Abs()).body.Condition?
      ensures Abs() == B.AddClause(old(Abs()), Condition(section, or, not, old(cl.Abs()).body.shape))
    {
      hide AbsAll, ClauseObject.Abs, ClauseObject.Valid;
      cl.Stamp(section, or, not);
      assert Values() == old(Values());
      var host := if section == Having then havingSelf else whereSelf;
      host.AddClause(cl);
    }

    method SetOrReplace(cl: ClauseObject)
      requires Valid() && cl.Valid() && this !in cl.Repr && table !in cl.Repr && cl !in Repr
      modifies this, cl`engine
      ensures Valid() && table == old(table) && Repr == old(Repr) + cl.Repr
      ensures Abs() == B.SetOrReplace(old(Abs()), old(cl.Abs()).body)
    {
      hide AbsAll, ClauseObject.Abs, ClauseObject.Valid, Tag, B.SlotOf;
      cl.SetEngine(engineScope);
      assert Values() == old(Values());
      ghost var cs, c := Values(), cl.Abs();
      cl.TagIs();
      var tag := cl.TagOf();
      for i := 0 to |clauses|
        invariant Valid() && cl.Valid() && Values() == cs && cl.Abs() == c
        invariant forall j :: 0 <= j < i ==> !(Tag(cs[j]) == Tag(c) && cs[j].engine == engineScope)
        invariant unchanged(this)
      {
        clauses[i].TagIs();
        if clauses[i].TagOf() == tag && clauses[i].engine == engineScope {
          clauses := clauses[i := cl];
          Repr := Repr + cl.Repr;
          assert Values() == cs[i := c];
          return;
        }
      }
      Append(cl);
    }

    method DropInScope(of: Component)
      requires Valid()
      modifies `clauses
      ensures Valid() && Repr == old(Repr) && Abs() == B.DropInScope(old(Abs()), of)
    {
      hide AbsAll, ClauseObject.Abs, ClauseObject.Valid;
      ghost var cs := Values();
      var all := clauses;
      var kept: seq<ClauseObject> := [];
      assert cs[..0] == [];
      for i := 0 to |all|
        invariant unchanged(this) && all == clauses && forall k <- kept :: k in all && k.Valid()
        invariant |kept| == |B.Outside(cs[..i], of, engineScope)|
        invariant forall j :: 0 <= j < |kept| ==> kept[j].Abs() == B.Outside(cs[..i], of, engineScope)[j]
      {
        all[i].TagIs();
        OutsideNext(cs, i, of, engineScope);
        if !(all[i].TagOf() == of && all[i].engine == engineScope) { kept := kept + [all[i]]; }
      }
      assert cs[..|all|] == cs;
      clauses := kept;
    }

    method As(alias: string)
      requires Valid()
      modifies `alias
      ensures Valid() && Repr == old(Repr) && Abs() == old(Abs()).(alias := alias)
    {
      hide AbsAll, ClauseObject.Abs, ClauseObject.Valid;
      this.alias := alias;
      assert Values() == old(Values());
    }

    method HasWhere() returns (any: bool)
      requires Valid()
      ensures any <==> exists cl <- Abs().clauses :: Tag(cl) == Where
    {
      hide AbsAll, ClauseObject.Abs, ClauseObject.Valid;
      for i := 0 to |clauses|
        invariant forall j :: 0 <= j < i ==> Tag(Values()[j]) != Where
      {
        clauses[i].TagIs();
        if clauses[i].TagOf() == Where {
          assert Values()[i] in Values();
          return true;
        }
      }
      return false;
    }

    /** Runs a builder program on this query. */
    method Execute(program: seq<B.Step>)
      requires Valid() && B.AllLegal(program)
      modifies this, table
      ensures Valid() && table == old(table) && fresh(Repr - old(Repr)) && Abs() == B.Run(old(Abs()), program)
      decreases program, 2
    {
      hide QueryObject.Abs, QueryObject.Valid, B.Apply, B.Legal;
      assert program[0..] == program;
      for i := 0 to |program|
        invariant Valid() && table == old(table) && fresh(Repr - old(Repr))
        invariant B.Run(Abs(), program[i..]) == B.Run(old(Abs()), program)
      {
        assert program[i..][1..] == program[i + 1..];
        B.LegalAt(program, i);
        Perform(program[i]);
      }
      assert program[|program|..] == [];
    }

    method Perform(step: B.Step)
      requires Valid() && B.Legal(step)
      modifies this, table
      ensures Valid() && table == old(table) && fresh(Repr - old(Repr)) && Abs() == B.Apply(old(Abs()), step)
      decreases step, 2
    {
      hide AbsAll, ClauseObject.Abs, ClauseObject.Valid, B.Run, B.Flat, QueryObject.Abs, B.Legal, B.Apply;
      if step.Within? {
        B.LegalInside(step);
        For(step.engine, step.program);
      } else if B.Adds(step) {
        var cl := MakeClause(step);
        B.ApplyProduced(Abs(), step);
        if cl != null { Place(cl); }
      } else if step.Put? || step.PutFrom? || step.Write? || step.WriteFrom? || step.Increase? {
        Rewriting(step);
      } else {
        Setting(step);
      }
    }

    /** The verbs that set or replace. */
    method Rewriting(step: B.Step)
      requires Valid() && B.Legal(step)
      requires step.Put? || step.PutFrom? || step.Write? || step.WriteFrom? || step.Increase?
      modifies this
      ensures Valid() && table == old(table) && fresh(Repr - old(Repr)) && Abs() == B.Apply(old(Abs()), step)
      decreases step, 1
    {
      hide AbsAll, ClauseObject.Abs, ClauseObject.Valid, B.Run, QueryObject.Values, QueryObject.Abs, B.SetOrReplace, B.AddClause,
        B.DropInScope;
      if step.Put? {
        var cl := MakeLeaf(step.body);
        SetOrReplace(cl);
      } else if step.PutFrom? {
        var sub := Embed(step.program, step.alias);
        var cl := MakeAround(FromQuery(EmptyQuery), sub);
        SetOrReplace(cl);
      } else if step.Write? {
        Rewrite(step.verb, step.section, step.bodies);
      } else if step.WriteFrom? {
        var sub := Embed(step.program, "");
        var cl := MakeAround(InsertQuery(step.columns, EmptyQuery), sub);
        SetVerb(MethodInsert);
        DropInScope(Insert);
        AddClause(cl);
      } else {
        var cl := MakeLeaf(Increment(step.column, step.amount));
        SetVerb(MethodUpdate);
        SetOrReplace(cl);
      }
    }

    /** The verbs that only set a field. */
    method Setting(step: B.Step)
      requires Valid() && (step.Erase? || step.Define? || step.Name? || step.Deduplicate? || step.Remark?)
      modifies this, table
      ensures Valid() && table == old(table) && Repr == old(Repr) && Abs() == B.Apply(old(Abs()), step)
    {
      hide AbsAll, ClauseObject.Abs, ClauseObject.Valid, B.Run, QueryObject.Values, QueryObject.Abs;
      if step.Erase? {
        SetVerb(MethodDelete);
      } else if step.Define? {
        DefineVariable(step.name, step.value);
      } else if step.Name? {
        As(step.alias);
      } else if step.Deduplicate? {
        SetDistinct();
      } else {
        SetComment(step.text);
      }
    }

    /** Conditions go through the face of their section, other clauses directly. */
    method Place(cl: ClauseObject)
      requires Valid() && cl.Valid() && this !in cl.Repr && table !in cl.Repr && cl !in Repr
      modifies this, cl
      ensures Valid() && table == old(table) && Repr == old(Repr) + cl.Repr && cl.Repr == old(cl.Repr)
      ensures Abs() == B.AddClause(old(Abs()), old(cl.Abs()).body)
    {
      hide AbsAll, ClauseObject.Valid, QueryObject.Abs;
      if cl.form.Condition? {
        AddCondition(cl.section, cl.or, cl.not, cl);
      } else {
        AddClause(cl);
      }
    }

    /** The write verbs: switch the verb, drop what the current scope wrote, add. */
    method Rewrite(verb: Method, section: Component, bodies: seq<Body>)
      requires Valid() && B.Legal(B.Write(verb, section, bodies))
      modifies this
      ensures Valid() && table == old(table) && fresh(Repr - old(Repr))
      ensures Abs() == B.Apply(old(Abs()), B.Write(verb, section, bodies))
    {
      hide AbsAll, ClauseObject.Abs, ClauseObject.Valid, QueryObject.Values, QueryObject.Abs, B.DropInScope, B.AddClause;
      SetVerb(verb);
      DropInScope(section);
      ghost var all := B.AddAll(Abs(), bodies);
      assert bodies[0..] == bodies;
      for i := 0 to |bodies|
        invariant Valid() && table == old(table) && fresh(Repr - old(Repr))
        invariant B.AddAll(Abs(), bodies[i..]) == all
      {
        assert bodies[i..][1..] == bodies[i + 1..];
        assert bodies[i] in bodies;
        var cl := MakeLeaf(bodies[i]);
        AddClause(cl);
      }
      assert bodies[|bodies|..] == [];
    }

    /** The scope resets to unrestricted, whatever it was before. */
    method For(engine: string, program: seq<B.Step>)
      requires Valid() && B.AllLegal(program)
      modifies this, table
      ensures Valid() && table == old(table) && fresh(Repr - old(Repr)) && Abs() == B.Apply(old(Abs()), B.Within(engine, program))
      decreases program, 3
    {
      hide AbsAll, ClauseObject.Abs, ClauseObject.Valid, B.Run, B.Legal, QueryObject.Values;
      SetScope(engine);
      Execute(program);
      SetScope("");
    }

    method SetVerb(verb: Method)
      requires Valid()
      modifies `verb
      ensures Valid() && Repr == old(Repr) && Abs() == old(Abs()).(verb := verb)
    {
      hide AbsAll, ClauseObject.Abs, ClauseObject.Valid;
      this.verb := verb;
      assert Values() == old(Values());
    }

    method DefineVariable(name: string, value: Value)
      requires Valid()
      modifies table
      ensures Valid() && Repr == old(Repr) && Abs() == old(Abs()).(variables := old(Abs()).variables[name := value])
    {
      hide AbsAll, ClauseObject.Abs, ClauseObject.Valid;
      table.Define(name, value);
      assert Values() == old(Values());
    }

    method SetDistinct()
      requires Valid()
      modifies `distinct
      ensures Valid() && Repr == old(Repr) && Abs() == old(Abs()).(distinct := true)
    {
      hide AbsAll, ClauseObject.Abs, ClauseObject.Valid;
      distinct := true;
      assert Values() == old(Values());
    }

    method SetComment(text: string)
      requires Valid()
      modifies `comment
      ensures Valid() && Repr == old(Repr) && Abs() == old(Abs()).(comment := text)
    {
      hide AbsAll, ClauseObject.Abs, ClauseObject.Valid;
      comment := text;
      assert Values() == old(Values());
    }

    method SetScope(engine: string)
      requires Valid()
      modifies `engineScope
      ensures Valid() && Repr == old(Repr) && Abs() == old(Abs()).(engineScope := engine)
    {
      hide AbsAll, ClauseObject.Abs, ClauseObject.Valid;
      engineScope := engine;
      assert Values() == old(Values());
    }

    /** The clause objects of a section that an engine sees. */
    method Components(of: Component, engine: string) returns (found: seq<ClauseObject>)
      requires Valid()
      ensures forall f <- found :: f in clauses && f.Valid()
      ensures |found| == |Ast.Components(Values(), of, engine)|
      ensures forall i :: 0 <= i < |found| ==> found[i].Abs() == Ast.Components(Values(), of, engine)[i]
    {
      hide AbsAll, ClauseObject.Abs, ClauseObject.Valid, QueryObject.Abs;
      found := [];
      ghost var cs := Values();
      assert cs[..0] == [];
      for i := 0 to |clauses|
        invariant forall f <- found :: f in clauses && f.Valid()
        invariant |found| == |Ast.Components(cs[..i], of, engine)|
        invariant forall j :: 0 <= j < |found| ==> found[j].Abs() == Ast.Components(cs[..i], of, engine)[j]
      {
        var c := clauses[i];
        c.TagIs();
        ComponentsNext(cs, i, of, engine);
        if c.TagOf() == of && (engine == "" || c.engine == "" || c.engine == engine) { found := found + [c]; }
      }
      assert cs[..|clauses|] == cs;
    }

    /** The single clause object of a section: scoped to the engine, else unscoped. */
    method One(of: Component, engine: string) returns (one: ClauseObject?)
      requires Valid()
      ensures one != null ==> one in clauses && one.Valid() && Some(one.Abs()) == Ast.One(Values(), of, engine)
      ensures one == null ==> Ast.One(Values(), of, engine).None?
    {
      hide AbsAll, ClauseObject.Abs, ClauseObject.Valid, QueryObject.Abs, QueryObject.Values, Ast.Components, FirstScoped, Tag, Visible;
      var visible := Components(of, engine);
      ghost var cs := Ast.Components(Values(), of, engine);
      one := FirstWith(visible, engine, cs);
      if one == null { one := FirstWith(visible, "", cs); }
    }

    /** Removes the clauses of the given sections, whatever their engine scope. */
    method DropClauses(of: set<Component>)
      requires Valid()
      modifies `clauses
      ensures Valid() && Repr == old(Repr) && Abs() == Drop(old(Abs()), of)
    {
      hide AbsAll, ClauseObject.Abs, ClauseObject.Valid, Tag;
      ghost var cs := Values();
      var all := clauses;
      var kept: seq<ClauseObject> := [];
      assert cs[..0] == [];
      for i := 0 to |all|
        invariant unchanged(this) && all == clauses && forall k <- kept :: k in all && k.Valid()
        invariant |kept| == |Without(cs[..i], of)|
        invariant forall j :: 0 <= j < |kept| ==> kept[j].Abs() == Without(cs[..i], of)[j]
      {
        all[i].TagIs();
        WithoutNext(cs, i, of);
        if all[i].TagOf() !in of { kept := kept + [all[i]]; }
      }
      assert cs[..|all|] == cs;
      clauses := kept;
    }

    /** A new query with its own faces, the query-level state copied, and the clauses
        cloned one by one. */
    method Clone() returns (clone: QueryObject)
      requires Valid()
      ensures clone.Valid() && fresh(clone.Repr) && clone.Abs() == Abs()
      decreases Repr, 0
    {
      hide AbsAll, ClauseObject.Abs, ClauseObject.Valid;
      clone := new QueryObject();
      clone.CopySettings(this);
      clone.CopyClauses(clauses, Repr - {this});
    }

    /** The query-level state: everything but the clauses and the faces. */
    method CopySettings(q: QueryObject)
      requires Valid() && clauses == []
      modifies this
      ensures Valid() && fresh(table) && Repr == old(Repr) + {table} && clauses == [] && SameSettings(q)
    {
      engineScope := q.engineScope;
      verb := q.verb;
      alias := q.alias;
      distinct := q.distinct;
      comment := q.comment;
      table := q.table.Clone();
      Repr := Repr + {table};
    }

    method CopyClauses(cs: seq<ClauseObject>, ghost R: set<object>)
      requires Valid() && clauses == [] && this !in R && table !in R
      requires forall cl <- cs :: cl in R && cl.Repr <= R && cl.Valid()
      modifies this
      ensures Valid() && table == old(table) && fresh(Repr - old(Repr)) && Values() == AbsAll(cs, R)
      ensures unchanged(`engineScope, `verb, `alias, `distinct, `comment, `table)
      decreases R, |cs| + 2
    {
      hide AbsAll, ClauseObject.Abs, ClauseObject.Valid, QueryObject.Abs, QueryObject.Values;
      for i := 0 to |cs|
        invariant Valid() && table == old(table) && fresh(Repr - old(Repr)) && |clauses| == i
        invariant unchanged(`engineScope, `verb, `alias, `distinct, `comment, `table)
        invariant forall j :: 0 <= j < i ==> Values()[j] == cs[j].Abs()
      {
        var copy := cs[i].Clone();
        Append(copy);
      }
    }

    ghost predicate SameSettings(q: QueryObject)
      reads this, table, q, q.table
    {
      && engineScope == q.engineScope && verb == q.verb && alias == q.alias && distinct == q.distinct
      && comment == q.comment && table.entries == q.table.entries
    }

    /** Appends a clause object that no clause here holds. */
    method Append(cl: ClauseObject)
      requires Valid() && cl.Valid() && this !in cl.Repr && table !in cl.Repr
      modifies this
      ensures Valid() && table == old(table) && Repr == old(Repr) + cl.Repr && clauses == old(clauses) + [cl]
      ensures Values() == old(Values()) + [cl.Abs()]
      ensures unchanged(`engineScope, `verb, `alias, `distinct, `comment, `table)
    {
      hide AbsAll, ClauseObject.Abs, QueryObject.Abs;
      clauses := clauses + [cl];
      Repr := Repr + cl.Repr;
    }
  }

  // ----- making clause objects --------------------------------------------------------------------------

  function ValuesIn(body: Body): seq<Value> {
    match body
    case FromRaw(raw) => raw.bindings
    case RawColumn(_, raw) => raw.bindings
    case OrderRaw(raw) => raw.bindings
    case CombineRaw(raw) => raw.bindings
    case RawCte(_, raw) => raw.bindings
    case Condition(_, _, _, shape) =>
      if shape.RawCondition? then shape.raw.bindings else if shape.In? then shape.values else []
    case InsertRow(_, values, _) => values
    case UpdateSet(_, values) => values
    case _ => []
  }

  function NamesIn(body: Body): seq<string> {
    match body
    case Aggregated(_, columns) => columns
    case TableCte(_, columns, _) => columns
    case InsertRow(columns, _, _) => columns
    case UpdateSet(columns, _) => columns
    case OnConflict(columns) => columns
    case InsertQuery(columns, _) => columns
    case _ => []
  }

  function RowsIn(body: Body): seq<seq<Value>> { if body.TableCte? then body.rows else [] }

  /** A body without embedded query, group or join. */
  predicate Leaf(body: Body) {
    SubQueryOf(Clause("", body)).None? && GroupOf(Clause("", body)).None? && JoinOf(Clause("", body)).None?
  }

  lemma {:induction false} LeafParts(body: Body)
    requires Leaf(body)
    ensures var section := if body.Condition? then body.section else Select;
      var or, not := body.Condition? && body.or, body.Condition? && body.not;
      BodyOf(body, section, or, not, ValuesIn(body), NamesIn(body), RowsIn(body), None, []) == body
  {
  }

  lemma {:induction false} AroundParts(body: Body, section: Component, or: bool, not: bool, child: Query)
    requires body.QueryColumn? || body.CombineQuery? || body.QueryCte? || body.FromQuery? || body.InsertQuery?
      || (body.Condition? && (ShapeQuery(body.shape).Some? || body.shape.Nested?))
    requires body.Condition? ==> section == body.section && or == body.or && not == body.not
    ensures var made := BodyOf(body, section, or, not, ValuesIn(body), NamesIn(body), [], Some(child), []);
      if body.FromQuery? then made == FromQuery(child)
      else if body.InsertQuery? then made == InsertQuery(body.columns, child)
      else if body.Condition? && body.shape.Nested? then made == Condition(section, or, not, Nested(child))
      else made == B.Wrapping(body, child)
  {
  }

  method NewArray<T(0)>(items: seq<T>) returns (a: array<T>)
    ensures fresh(a) && a[..] == items
  {
    a := new T[|items|](i requires 0 <= i < |items| => items[i]);
  }

  method NewRows(rows: seq<seq<Value>>) returns (made: seq<array<Value>>)
    ensures |made| == |rows| && (forall m <- made :: fresh(m))
    ensures forall i :: 0 <= i < |rows| ==> made[i][..] == rows[i]
  {
    made := [];
    for i := 0 to |rows|
      invariant |made| == i && forall m <- made :: fresh(m)
      invariant forall j :: 0 <= j < i ==> made[j][..] == rows[j]
    {
      var row := NewArray(rows[i]);
      made := made + [row];
    }
  }

  /** A clause object for a body, with lists of its own. */
  method MakeLeaf(body: Body) returns (cl: ClauseObject)
    requires Leaf(body)
    ensures cl.Valid() && fresh(cl.Repr) && cl.Abs() == Clause("", body) && (cl.form.Condition? <==> body.Condition?)
  {
    hide AbsAll, Rows, QueryObject.Abs, QueryObject.Valid, ValuesIn, NamesIn, RowsIn, BodyOf, Leaf;
    var values := NewArray(ValuesIn(body));
    var names := NewArray(NamesIn(body));
    var rows := NewRows(RowsIn(body));
    var section := if body.Condition? then body.section else Select;
    cl := new ClauseObject("", section, body.Condition? && body.or, body.Condition? && body.not, body, values, names, rows,
                           null, [], {values, names} + (set r <- rows :: r as object));
    LeafParts(body);
    assert cl.RowValues() == RowsIn(body) && cl.Values() == [];
  }

  /** A clause object around an embedded query. */
  method MakeAround(body: Body, child: QueryObject) returns (cl: ClauseObject)
    requires body.QueryColumn? || body.CombineQuery? || body.QueryCte? || body.FromQuery? || body.InsertQuery?
      || (body.Condition? && (ShapeQuery(body.shape).Some? || body.shape.Nested?))
    requires child.Valid()
    ensures cl.Valid() && fresh(cl.Repr - child.Repr) && child.Repr <= cl.Repr && cl !in child.Repr
    ensures cl.Abs() == Clause("",
      if body.FromQuery? then FromQuery(child.Abs())
      else if body.InsertQuery? then InsertQuery(body.columns, child.Abs())
      else if body.Condition? && body.shape.Nested? then Condition(body.section, body.or, body.not, Nested(child.Abs()))
      else B.Wrapping(body, child.Abs()))
    ensures cl.form.Condition? <==> body.Condition?
  {
    hide AbsAll, Rows, QueryObject.Abs, QueryObject.Valid, ValuesIn, NamesIn, BodyOf;
    var values := NewArray(ValuesIn(body));
    var names := NewArray(NamesIn(body));
    var section := if body.Condition? then body.section else Select;
    var or, not := body.Condition? && body.or, body.Condition? && body.not;
    cl := new ClauseObject("", section, or, not, body, values, names, [], child, [], {values, names} + child.Repr);
    AroundParts(body, section, or, not, child.Abs());
    assert cl.RowValues() == [] && cl.Values() == [];
    assert cl.ChildAbs() == Some(child.Abs());
  }

  // ----- running builder programs -----------------------------------------------------------------------

  /** The query that a callback or a caller builds from scratch. */
  method Scratch(program: seq<B.Step>) returns (sub: QueryObject)
    requires B.AllLegal(program)
    ensures sub.Valid() && fresh(sub.Repr) && sub.Abs() == B.Run(EmptyQuery, program)
    decreases program, 3
  {
    sub := new QueryObject();
    sub.Execute(program);
  }

  /** Embedding copies the query, and the copy takes the alias unless it is empty. */
  method Embed(program: seq<B.Step>, alias: string) returns (copy: QueryObject)
    requires B.AllLegal(program)
    ensures copy.Valid() && fresh(copy.Repr) && copy.Abs() == B.Renamed(B.Run(EmptyQuery, program), alias)
    decreases program, 4
  {
    var sub := Scratch(program);
    copy := sub.Clone();
    if alias != "" { copy.As(alias); }
  }

  /** The clause object of an adding verb; null for a group without conditions. */
  method MakeClause(step: B.Step) returns (cl: ClauseObject?)
    requires B.Adds(step)
    requires B.Legal(step)
    ensures cl == null <==> B.Produced(step).None?
    ensures cl != null ==> cl.Valid() && fresh(cl.Repr) && cl.Abs() == Clause("", B.Produced(step).value)
    decreases step, 1
  {
    hide ClauseObject.Abs, ClauseObject.Valid, QueryObject.Abs, QueryObject.Valid, B.Run;
    match step
    case Add(body) => cl := MakeLeaf(body);
    case AddWith(body, program, alias) =>
      var sub := Embed(program, alias);
      cl := MakeAround(body, sub);
      assert B.Produced(step) == Some(B.Wrapping(body, sub.Abs()));
    case AddGroup(section, or, not, program) =>
      var group := Scratch(program);
      var any := group.HasWhere();
      cl := null;
      if any { cl := MakeAround(Condition(section, or, not, Nested(EmptyQuery)), group); }
    case AddFiltered(aggregate, column, program) =>
      cl := MakeFiltered(aggregate, column, program);
    case AddJoin(kind, target, conditions) =>
      cl := MakeJoin(kind, target, conditions);
    case AddJoinSub(_, _, _) =>
      cl := MakeJoinSub(step);
  }

  method MakeFiltered(aggregate: string, column: string, program: seq<B.Step>) returns (cl: ClauseObject)
    requires B.AllLegal(program)
    ensures cl.Valid() && fresh(cl.Repr)
    ensures cl.Abs() == Clause("", B.Produced(B.AddFiltered(aggregate, column, program)).value)
    decreases program, 4
  {
    hide AbsAll, Rows, QueryObject.Abs, QueryObject.Valid, B.Run;
    var values := NewArray<Value>([]);
    var names := NewArray<string>([]);
    var scope: QueryObject? := null;
    ghost var inside: set<object> := {values, names};
    if program != [] {
      scope := Scratch(program);
      inside := inside + scope.Repr;
    }
    cl := new ClauseObject("", Select, false, false, AggregateColumn(aggregate, column, None), values, names, [], scope, [], inside);
  }

  /** A join of a table or a raw expression. */
  method MakeJoin(kind: string, target: Body, conditions: seq<B.Step>) returns (j: ClauseObject)
    requires B.Legal(B.AddJoin(kind, target, conditions))
    ensures j.Valid() && fresh(j.Repr)
    ensures j.Abs() == Clause("", B.Produced(B.AddJoin(kind, target, conditions)).value)
    decreases conditions, 4
  {
    hide AbsAll, Rows, QueryObject.Abs, QueryObject.Valid, B.Run, B.Produced, ClauseObject.Abs, ClauseObject.Valid;
    var first := MakeLeaf(target);
    j := StartJoin(kind, first);
    AddConditions(j, conditions);
    JoinAbs(j, kind);
    JoinProduces(kind, target, conditions);
  }

  /** A join of a subquery: a copy, which keeps its own alias. */
  method MakeJoinSub(step: B.Step) returns (j: ClauseObject)
    requires step.AddJoinSub? && B.Legal(step)
    ensures j.Valid() && fresh(j.Repr) && j.Abs() == Clause("", B.Produced(step).value)
    decreases step, 0
  {
    hide AbsAll, Rows, QueryObject.Abs, QueryObject.Valid, B.Run, B.Produced, ClauseObject.Abs, ClauseObject.Valid;
    var sub := Embed(step.program, "");
    var first := MakeAround(FromQuery(EmptyQuery), sub);
    j := StartJoin(step.kind, first);
    AddConditions(j, step.conditions);
    JoinAbs(j, step.kind);
    JoinSubProduces(step);
  }

  /** A join with its target and nothing else. */
  method StartJoin(kind: string, first: ClauseObject) returns (j: ClauseObject)
    requires first.Valid()
    ensures j.Valid() && fresh(j.Repr - first.Repr) && fresh(j) && j.form == Join(kind, []) && j.engine == ""
    ensures j.Values() == [first.Abs()]
  {
    hide AbsAll, Rows, QueryObject.Abs, ClauseObject.Abs, ClauseObject.Valid;
    j := NewJoin(kind);
    j.AddMember(first);
  }

  lemma {:induction false} JoinProduces(kind: string, target: Body, conditions: seq<B.Step>)
    requires forall s <- conditions :: B.IsCondition(s)
    ensures B.Produced(B.AddJoin(kind, target, conditions)) ==
      Some(Join(kind, [Clause("", target)] + B.JoinConditions(conditions)))
  {
    B.JoinConditionsAre(EmptyQuery, conditions);
    assert EmptyQuery.clauses + B.JoinConditions(conditions) == B.JoinConditions(conditions);
  }

  lemma {:induction false} JoinSubProduces(step: B.Step)
    requires step.AddJoinSub? && forall s <- step.conditions :: B.IsCondition(s)
    ensures B.Produced(step) ==
      Some(Join(step.kind, [Clause("", FromQuery(B.Run(EmptyQuery, step.program)))] + B.JoinConditions(step.conditions)))
  {
    B.JoinConditionsAre(EmptyQuery, step.conditions);
    assert EmptyQuery.clauses + B.JoinConditions(step.conditions) == B.JoinConditions(step.conditions);
  }

  /** The ON callback: each condition goes through the join's face. */
  method AddConditions(j: ClauseObject, conditions: seq<B.Step>)
    requires j.Valid() && j.form.Join? && B.AllLegal(conditions) && forall s <- conditions :: B.IsCondition(s)
    modifies j
    ensures j.Valid() && fresh(j.Repr - old(j.Repr)) && j.form == old(j.form) && j.engine == old(j.engine)
    ensures j.Values() == old(j.Values()) + B.JoinConditions(conditions)
    decreases conditions, 3
  {
    hide AbsAll, Rows, QueryObject.Abs, QueryObject.Valid, B.Run, B.Produced, ClauseObject.Abs, ClauseObject.Valid,
      ClauseObject.Values, B.Legal;
    ghost var all := old(j.Values()) + B.JoinConditions(conditions);
    assert conditions[0..] == conditions;
    for i := 0 to |conditions|
      invariant j.Valid() && fresh(j.Repr - old(j.Repr)) && j.form == old(j.form) && j.engine == old(j.engine)
      invariant j.Values() + B.JoinConditions(conditions[i..]) == all
    {
      assert conditions[i..][0] == conditions[i] && conditions[i..][1..] == conditions[i + 1..];
      assert B.IsCondition(conditions[i]);
      B.LegalAt(conditions, i);
      var cl := MakeClause(conditions[i]);
      ghost var rest := B.JoinConditions(conditions[i + 1..]);
      if cl != null {
        assert j.Values() + ([cl.Abs()] + rest) == (j.Values() + [cl.Abs()]) + rest;
        j.AddMember(cl);
      } else {
        assert [] + rest == rest;
      }
    }
    assert conditions[|conditions|..] == [] && j.Values() + [] == j.Values();
  }

  lemma {:induction false} JoinAbs(j: ClauseObject, kind: string)
    requires j.Valid() && j.form == Join(kind, [])
    ensures j.Abs() == Clause(j.engine, Join(kind, j.Values()))
  {
    hide AbsAll, Rows, QueryObject.Abs;
  }

  /** A join names itself the host of its condition face. */
  method NewJoin(kind: string) returns (j: ClauseObject)
    ensures j.Valid() && fresh(j.Repr) && j.form == Join(kind, []) && j.engine == "" && j.Values() == []
  {
    var values := NewArray<Value>([]);
    var names := NewArray<string>([]);
    j := new ClauseObject("", Select, false, false, Join(kind, []), values, names, [], null, [], {values, names});
  }

  // ----- independence -------------------------------------------------------------------------------------

  /** A clone and its original go their own ways: whatever is built on one side later,
      the other side's value, and so everything compiled from it, is unaffected. */
  method CloneThenBuild(q: QueryObject, onCopy: seq<B.Step>, onOriginal: seq<B.Step>) returns (copy: QueryObject)
    requires q.Valid() && B.AllLegal(onCopy) && B.AllLegal(onOriginal)
    modifies q, q.table
    ensures q.Valid() && copy.Valid() && fresh(copy.Repr) && copy.Repr !! q.Repr
    ensures copy.Abs() == B.Run(old(q.Abs()), onCopy)
    ensures q.Abs() == B.Run(old(q.Abs()), onOriginal)
  {
    hide ClauseObject.Abs, ClauseObject.Valid, QueryObject.Abs, B.Run, B.AllLegal;
    copy := q.Clone();
    copy.Execute(onCopy);
    q.Execute(onOriginal);
  }

  /** The callback of a For block may keep a clone: it stays in the block's scope,
      the original leaves it. */
  method CloneInside(q: QueryObject, engine: string, inside: seq<B.Step>) returns (copy: QueryObject)
    requires q.Valid() && B.AllLegal(inside)
    modifies q, q.table
    ensures q.Valid() && copy.Valid() && fresh(copy.Repr) && copy.Repr !! q.Repr
    ensures copy.Abs() == B.Run(old(q.Abs()).(engineScope := engine), inside)
    ensures q.Abs() == B.Apply(old(q.Abs()), B.Within(engine, inside))
  {
    hide AbsAll, ClauseObject.Abs, ClauseObject.Valid, B.Run, B.AllLegal, QueryObject.Values;
    q.SetScope(engine);
    q.Execute(inside);
    copy := q.Clone();
    q.SetScope("");
  }

  /** Embedding copies: what the caller does to the embedded query afterwards does not
      reach the query that embeds it. */
  method EmbedThenBuild(q: QueryObject, sub: QueryObject, alias: string, later: seq<B.Step>)
    requires q.Valid() && sub.Valid() && q.Repr !! sub.Repr && B.AllLegal(later)
    modifies q, sub, sub.table
    ensures q.Valid() && sub.Valid()
    ensures q.Abs() == B.SetOrReplace(old(q.Abs()), FromQuery(B.Renamed(old(sub.Abs()), alias)))
    ensures sub.Abs() == B.Run(old(sub.Abs()), later)
  {
    hide ClauseObject.Abs, ClauseObject.Valid, QueryObject.Abs, B.Run, B.AllLegal, B.SetOrReplace;
    var copy := sub.Clone();
    if alias != "" { copy.As(alias); }
    var cl := MakeAround(FromQuery(EmptyQuery), copy);
    q.SetOrReplace(cl);
    sub.Execute(later);
  }

  /** Raw sources, conditions, CTEs and combinations copy the caller's bindings. */
  method NewRawFrom(expression: string, bindings: array<Value>) returns (cl: ClauseObject)
    ensures cl.Valid() && fresh(cl.Repr) && cl.Abs() == Clause("", FromRaw(Raw(Written(expression), bindings[..])))
  {
    cl := MakeLeaf(FromRaw(Raw(Written(expression), bindings[..])));
  }

  /** Raw orderings (and raw columns) keep the caller's array itself. */
  method NewRawOrder(expression: string, bindings: array<Value>) returns (cl: ClauseObject)
    ensures cl.Valid() && fresh(cl.Repr - {bindings}) && cl.values == bindings
    ensures cl.engine == "" && cl.form == OrderRaw(Raw(Written(expression), []))
    ensures cl.child == null && cl.members == [] && cl.rows == []
    ensures cl.Abs() == Clause("", OrderRaw(Raw(Written(expression), bindings[..])))
  {
    hide AbsAll, Rows, QueryObject.Abs;
    var names := NewArray<string>([]);
    cl := new ClauseObject("", Select, false, false, OrderRaw(Raw(Written(expression), [])), bindings, names, [], null, [],
                           {bindings, names});
  }

  lemma {:induction false} RawOrderReads(cl: ClauseObject, expression: string)
    requires cl.Valid() && cl.form == OrderRaw(Raw(Written(expression), []))
    ensures cl.Abs() == Clause(cl.engine, OrderRaw(Raw(Written(expression), cl.values[..])))
  {
    hide AbsAll, Rows, QueryObject.Abs;
  }

  /** A later write by the caller reaches a raw ordering and not a raw source. */
  method CallerWrites(expression: string, bindings: array<Value>, v: Value) returns (order: ClauseObject, from: ClauseObject)
    requires bindings.Length > 0
    modifies bindings
    ensures order.Valid() && from.Valid()
    ensures order.Abs() == Clause("", OrderRaw(Raw(Written(expression), old(bindings[..])[0 := v])))
    ensures from.Abs() == Clause("", FromRaw(Raw(Written(expression), old(bindings[..]))))
  {
    hide AbsAll, Rows, QueryObject.Abs, ClauseObject.Values, ClauseObject.RowValues, ClauseObject.ChildAbs;
    order := NewRawOrder(expression, bindings);
    from := NewRawFrom(expression, bindings);
    RawOrderReads(order, expression);
    bindings[0] := v;
    assert order.Valid();
    RawOrderReads(order, expression);
  }

  // ----- the aggregate rewrite ------------------------------------------------------------------------------

  function Outer(kind: string, inner: Query): Query {
    EmptyQuery.(clauses := [Clause("", Aggregated(kind, ["*"])), Clause("", FromQuery(inner))])
  }

  lemma {:induction false} TransformUnfolds(q: Query, engine: string)
    ensures var cl := One(q.clauses, Aggregate, engine);
      St.TransformAggregate(q, engine) ==
        if cl.Some? && cl.value.body.Aggregated? then
          var Aggregated(kind, columns) := cl.value.body;
          if |columns| == 1 && !q.distinct then Drop(q, {Limit, Order, Group})
          else Outer(kind, St.InnerQuery(q, kind, columns))
        else q
  {
    hide One;
  }

  lemma {:induction false} QuerySettings(q: QueryObject)
    requires q.Valid()
    ensures q.Abs().clauses == q.Values() && q.Abs().distinct == q.distinct && q.Abs().engineScope == q.engineScope
  {
  }

  lemma {:induction false} AggregatedForm(cl: ClauseObject)
    requires cl.Valid()
    ensures cl.Abs().body.Aggregated? <==> cl.form.Aggregated?
    ensures cl.form.Aggregated? ==> cl.Abs().body == Aggregated(cl.form.kind, cl.names[..])
  {
    hide AbsAll, Rows, QueryObject.Abs;
  }

  lemma {:induction false} OuterIs(kind: string, inner: Query)
    ensures B.SetOrReplace(B.SetOrReplace(EmptyQuery, Aggregated(kind, ["*"])), FromQuery(inner)) == Outer(kind, inner)
  {
  }

  lemma {:induction false} AppendNext(q: Query, bodies: seq<Body>, i: nat)
    requires i < |bodies|
    ensures B.AddClause(Append(q, bodies[..i]), bodies[i]) == Append(q, bodies[..i + 1])
  {
    assert Stamp(q.engineScope, bodies[..i + 1]) == Stamp(q.engineScope, bodies[..i]) + [Clause(q.engineScope, bodies[i])];
  }

  lemma {:induction false} AppendEnds(q: Query, bodies: seq<Body>)
    ensures Append(q, bodies[..0]) == q && bodies[..|bodies|] == bodies
  {
    assert q.clauses + Stamp(q.engineScope, bodies[..0]) == q.clauses;
  }

  method SelectAll(out: QueryObject, columns: array<string>)
    requires out.Valid()
    modifies out
    ensures out.Valid() && fresh(out.Repr - old(out.Repr))
    ensures out.Abs() == Append(old(out.Abs()), St.ColumnBodies(columns[..]))
  {
    hide AbsAll, ClauseObject.Abs, ClauseObject.Valid, QueryObject.Abs, Append, B.AddClause, QueryObject.Valid;
    ghost var bodies := St.ColumnBodies(columns[..]);
    AppendEnds(out.Abs(), bodies);
    for i := 0 to columns.Length
      invariant out.Valid() && fresh(out.Repr - old(out.Repr)) && out.Abs() == Append(old(out.Abs()), bodies[..i])
    {
      var cl := MakeLeaf(Column(Select, columns[i]));
      AppendNext(old(out.Abs()), bodies, i);
      out.AddClause(cl);
    }
  }

  method GuardAll(out: QueryObject, columns: array<string>)
    requires out.Valid()
    modifies out
    ensures out.Valid() && fresh(out.Repr - old(out.Repr))
    ensures out.Abs() == Append(old(out.Abs()), St.GuardBodies(columns[..]))
  {
    hide AbsAll, ClauseObject.Abs, ClauseObject.Valid, QueryObject.Abs, Append, B.AddClause, QueryObject.Valid;
    ghost var bodies := St.GuardBodies(columns[..]);
    AppendEnds(out.Abs(), bodies);
    for i := 0 to columns.Length
      invariant out.Valid() && fresh(out.Repr - old(out.Repr)) && out.Abs() == Append(old(out.Abs()), bodies[..i])
    {
      var cl := MakeLeaf(Condition(Where, false, true, IsNull(columns[i])));
      AppendNext(old(out.Abs()), bodies, i);
      out.AddCondition(Where, false, true, cl);
    }
  }

  /** Rewrites a copy; a query that is not in aggregate shape is returned itself. */
  method TransformAggregate(q: QueryObject, engine: string) returns (out: QueryObject)
    requires q.Valid()
    ensures out.Valid() && (out == q || fresh(out.Repr))
    ensures out.Abs() == St.TransformAggregate(q.Abs(), engine)
  {
    hide ClauseObject.Abs, ClauseObject.Valid, QueryObject.Abs, QueryObject.Values, QueryObject.Valid, St.TransformAggregate,
      Drop, Append, One;
    TransformUnfolds(q.Abs(), engine);
    QuerySettings(q);
    var found := q.One(Aggregate, engine);
    if found == null { return q; }
    AggregatedForm(found);
    if !found.form.Aggregated? { return q; }
    out := RewriteAggregate(q, found.form.kind, found.names);
  }

  method RewriteAggregate(q: QueryObject, kind: string, columns: array<string>) returns (out: QueryObject)
    requires q.Valid()
    ensures out.Valid() && fresh(out.Repr)
    ensures out.Abs() == if columns.Length == 1 && !q.Abs().distinct then Drop(q.Abs(), {Limit, Order, Group})
                         else Outer(kind, St.InnerQuery(q.Abs(), kind, columns[..]))
  {
    hide ClauseObject.Abs, ClauseObject.Valid, QueryObject.Abs, QueryObject.Values, QueryObject.Valid, Append, Drop, Outer;
    QuerySettings(q);
    out := q.Clone();
    out.DropClauses({Limit, Order, Group});
    DropKeepsDistinct(q.Abs(), {Limit, Order, Group});
    QuerySettings(out);
    if columns.Length == 1 && !out.distinct { return out; }
    if out.distinct {
      out.DropClauses({Aggregate, Select});
      SelectAll(out, columns);
    } else {
      GuardAll(out, columns);
    }
    out.As(kind + "Query");
    ghost var inner := out.Abs();
    assert inner == St.InnerQuery(q.Abs(), kind, columns[..]);
    out := WrapAggregate(kind, out);
  }

  lemma {:induction false} DropKeepsDistinct(q: Query, of: set<Component>)
    ensures Drop(q, of).distinct == q.distinct
  {
  }

  method WrapAggregate(kind: string, inner: QueryObject) returns (outer: QueryObject)
    requires inner.Valid()
    ensures outer.Valid() && fresh(outer.Repr - inner.Repr) && outer.Abs() == Outer(kind, inner.Abs())
  {
    hide ClauseObject.Abs, ClauseObject.Valid, QueryObject.Abs, QueryObject.Valid, B.SetOrReplace, Outer, ValuesIn, NamesIn, RowsIn;
    outer := new QueryObject();
    var aggregate := MakeLeaf(Aggregated(kind, ["*"]));
    outer.SetOrReplace(aggregate);
    var from := MakeAround(FromQuery(EmptyQuery), inner);
    outer.SetOrReplace(from);
    OuterIs(kind, inner.Abs());
  }

  // ----- EXISTS --------------------------------------------------------------------------------------------

  /** The subquery printed for EXISTS: a copy whose projection is the constant 1. */
  method ExistsSubQuery(q: QueryObject) returns (sub: QueryObject)
    requires q.Valid()
    ensures sub.Valid() && fresh(sub.Repr) && sub.Abs() == ExistsCopy(q.Abs())
  {
    hide ClauseObject.Abs, ClauseObject.Valid, QueryObject.Values;
    sub := q.Clone();
    sub.DropClauses({Select});
    var one := MakeLeaf(RawColumn(Select, Raw(Written("1"), [])));
    sub.Append(one);
  }
}
