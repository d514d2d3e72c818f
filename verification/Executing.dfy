/** A statement as a driver executes it: its text, with the placeholders standing for
    the arguments from left to right. */
module Executing {
  import opened Ast
  import opened Dialects
  import opened Emit
  import opened Placeholders
  import opened Statements
  import C = Ctes

  function From(args: seq<Value>, n: nat): seq<Value> { if n >= |args| then [] else args[n..] }

  function Execute(ts: seq<Token>, args: seq<Value>): (r: seq<Token>)
    ensures |r| == |ts|
    decreases ts
  {
    if ts == [] then []
    else
      match ts[0]
      case Hole(_) => [Hole(if args == [] then Unfilled else Filled(args[0]))] + Execute(ts[1..], From(args, 1))
      case Inner(tokens) => [Inner(Execute(tokens, args))] + Execute(ts[1..], From(args, |Holes(tokens)|))
      case t => [t] + Execute(ts[1..], args)
  }

  /** As long as the arguments are those that the placeholders were printed for, in
      order, they are filled in where they belong. */
  lemma {:induction false} ExecutePrefix(ts: seq<Token>, args: seq<Value>)
    requires |Holes(ts)| <= |args| && Holes(ts) == Slots(args[..|Holes(ts)|])
    ensures Execute(ts, args) == ts
    decreases ts
  {
    if ts != [] {
      var first := Holes([ts[0]]);
      HolesOfOne(ts[0]);
      HolesConcat([ts[0]], ts[1..]);
      assert ts == [ts[0]] + ts[1..];
      var rest := From(args, |first|);
      assert Holes(ts) == first + Holes(ts[1..]);
      hide Holes;
      SplitSlots(first, Holes(ts[1..]), args);
      ExecutePrefix(ts[1..], rest);
      if ts[0].Inner? { ExecutePrefix(ts[0].tokens, args); }
    }
  }

  lemma {:induction false} SplitSlots(a: seq<Slot>, b: seq<Slot>, args: seq<Value>)
    requires |a + b| <= |args| && a + b == Slots(args[..|a + b|])
    ensures a == Slots(args[..|a|]) && |b| <= |From(args, |a|)| && b == Slots(From(args, |a|)[..|b|])
  {
    assert a == (a + b)[..|a|] && b == (a + b)[|a|..];
    assert args[..|a + b|][..|a|] == args[..|a|];
    assert args[..|a + b|][|a|..] == From(args, |a|)[..|b|];
    SlotsConcat(args[..|a|], args[..|a + b|][|a|..]);
    assert args[..|a + b|] == args[..|a|] + args[..|a + b|][|a|..];
  }

  /** An aligned statement is executed as it was printed. */
  lemma {:induction false} AlignedExecutes(o: Out)
    requires Aligned(o)
    ensures Execute(o.sql, o.args) == o.sql
  {
    assert o.args[..|o.args|] == o.args;
    ExecutePrefix(o.sql, o.args);
  }

  // ----- write statements -----------------------------------------------------------------------

  /** What is printed in front of a write: its comment and the list of its CTEs. */
  function Before(c: Compiler, q: Query): seq<Token> {
    var ctes := C.Find(c.Engine(), {}, q.clauses).ctes;
    (if q.comment == "" then [] else [Remark(q.comment)])
    + if ctes == [] then [] else [Sym("WITH")] + Joined(EmitClauses(c, map[], ctes), ",").sql
  }

  lemma {:induction false} BeforeWrite(c: Compiler, q: Query)
    requires q.verb != MethodSelect
    ensures Emitted(c, q).sql == Before(c, q) + EmitWrite(c, q.variables, q.verb, q.clauses).sql
  {
    hide EmitWrite, C.Find, EmitClauses, Joined;
    var write := EmitWrite(c, q.variables, q.verb, q.clauses).sql;
    var ctes := C.Find(c.Engine(), {}, q.clauses).ctes;
    var with := if ctes == [] then [] else [Sym("WITH")] + Joined(EmitClauses(c, map[], ctes), ",").sql;
    assert WithCtes(c, EmitWrite(c, q.variables, q.verb, q.clauses), q.clauses).sql == with + write;
  }

  /** A write statement, executed with its arguments, after its comment and CTEs. */
  function Executed(c: Compiler, q: Query): (r: seq<Token>)
    requires q.verb != MethodSelect
  {
    BeforeWrite(c, q);
    Execute(Emitted(c, q).sql, Emitted(c, q).args)[|Before(c, q)|..]
  }

  /** A statement whose placeholders stand for its arguments is executed as it was
      printed. */
  lemma {:induction false} ExecutedIs(c: Compiler, q: Query)
    requires q.verb != MethodSelect && Aligned(Emitted(c, q))
    ensures Executed(c, q) == EmitWrite(c, q.variables, q.verb, q.clauses).sql
  {
    hide Emitted, EmitWrite, Before, Execute, Aligned;
    BeforeWrite(c, q);
    AlignedExecutes(Emitted(c, q));
  }
}
