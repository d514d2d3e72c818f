/** The chain of variable definitions that the compiler extends while it descends. */
module Variables {
  import opened Ast
  import opened Dialects

  /** A level of definitions and the chain above it. */
  datatype Scope = Nil | Level(variables: map<string, Value>, parent: Scope)

  /** The definitions in force: nearer levels win. */
  function Flatten(s: Scope): Env {
    match s case Nil => map[] case Level(variables, parent) => Flatten(parent) + variables
  }

  /** Walks up the chain for the nearest definition. */
  method Lookup(s: Scope, name: string) returns (found: Option<Value>)
    ensures found == if name in Flatten(s) then Some(Flatten(s)[name]) else None
  {
    var level := s;
    while level.Level?
      invariant name in Flatten(s) <==> name in Flatten(level)
      invariant name in Flatten(s) ==> Flatten(s)[name] == Flatten(level)[name]
      decreases level
    {
      if name in level.variables { return Some(level.variables[name]); }
      level := level.parent;
    }
    return None;
  }
}
