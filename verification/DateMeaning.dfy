/** Which part of a date a printed date comparison extracts, read back in every
    dialect. */
module DateMeaning {
  import opened Ast
  import opened Dialects
  import T = TestMeaning
  import S = Strings

  /** A comparison of a part of a date column. */
  datatype Dated = Dated(part: string, column: string, op: string, operand: T.Operand)

  // ----- the reader ---------------------------------------------------------------------------

  /** The text between a beginning and an end. */
  function Inside(text: string, before: nat, after: nat): Option<string> {
    if before + after <= |text| then Some(text[before..|text| - after]) else None
  }

  /** The formats of SQLite. */
  function OfFormat(format: string): Option<string> {
    if format == "%Y-%m-%d" then Some("DATE") else if format == "%H:%M:%S" then Some("TIME")
    else if format == "%Y" then Some("YEAR") else if format == "%m" then Some("MONTH") else if format == "%d" then Some("DAY")
    else if format == "%H" then Some("HOUR") else if format == "%M" then Some("MINUTE") else None
  }

  /** The part that the text around a column extracts. */
  function ReadPart(c: Compiler, before: string, after: string): Option<string> {
    match c.dialect
    case SQLite =>
      (match Inside(before, |"strftime('"|, |"', "|) case None => None case Some(format) => OfFormat(format))
    case Postgres =>
      if after == "::time" then Some("TIME") else if after == "::date" then Some("DATE")
      else Inside(before, |"DATE_PART('"|, |"', "|)
    case SqlServer(_) =>
      if before == "CAST(" then Inside(after, |" AS "|, |")"|) else Inside(before, |"DATEPART("|, |", "|)
    case Oracle(_) =>
      if before == "TO_CHAR(" then
        if after == ", 'YY-MM-DD')" then Some("DATE") else if after == ", 'HH24:MI:SS')" then Some("TIME") else None
      else Inside(before, |"EXTRACT("|, |" FROM "|)
    case _ => Inside(before, 0, |"("|)
  }

  function ReadOperandIn(ts: seq<Token>): Option<T.Operand> {
    if |ts| >= 1 && T.ReadOperand(ts[0]).Some? then T.ReadOperand(ts[0])
    else if |ts| >= 2 then T.ReadOperand(ts[1])
    else None
  }

  function ReadRest(part: string, column: Token, op: Token, rest: seq<Token>): Option<Dated> {
    if column.Ident? && op.Sym? && ReadOperandIn(rest).Some? then Some(Dated(part, column.name, op.text, ReadOperandIn(rest).value)) else None
  }

  function ReadDated(c: Compiler, ts: seq<Token>): Option<Dated> {
    if |ts| >= 5 && ts[0].Sym? && ts[2].Sym? then
      match ReadPart(c, ts[0].text, ts[2].text) case None => None case Some(part) => ReadRest(part, ts[1], ts[3], ts[4..])
    else if |ts| >= 4 && ts[0].Ident? && ts[1].Sym? then
      match ReadPart(c, "", ts[1].text) case None => None case Some(part) => ReadRest(part, ts[0], ts[2], ts[3..])
    else None
  }

  // ----- reading back ---------------------------------------------------------------------------

  /** The parts that a dialect has a form for. */
  predicate Mapped(c: Compiler, part: string) {
    match c.dialect
    case SQLite => part in {"date", "time", "year", "month", "day", "hour", "minute"}
    case Oracle(_) => part in {"date", "time", "year", "month", "day", "hour", "minute", "second"}
    case _ => true
  }

  lemma {:induction false} InsideReads(before: string, text: string, after: string)
    ensures Inside(before + text + after, |before|, |after|) == Some(text)
  {
    assert (before + text + after)[|before|..|before + text + after| - |after|] == text;
  }

  lemma {:induction false} UpperParts()
    ensures S.Upper("date") == "DATE" && S.Upper("time") == "TIME" && S.Upper("year") == "YEAR" && S.Upper("day") == "DAY"
  {
  }

  lemma {:induction false} LongUpperParts()
    ensures S.Upper("month") == "MONTH" && S.Upper("hour") == "HOUR" && S.Upper("minute") == "MINUTE"
  {
  }

  lemma {:induction false} FormatReads(part: string)
    requires part in {"date", "time", "year", "month", "day", "hour", "minute"}
    ensures StrftimeFormat(part) != "" && OfFormat(StrftimeFormat(part)) == Some(S.Upper(part))
  {
    UpperParts();
    LongUpperParts();
    hide S.Upper;
    assert |"%Y-%m-%d"| == 8 && |"%H:%M:%S"| == 8 && "%Y-%m-%d"[1] != "%H:%M:%S"[1];
  }

  /** The text around a column, for a part that the dialect has a form for. */
  lemma {:induction false} PartReads(c: Compiler, part: string, v: Value)
    requires Mapped(c, part)
    ensures var f := DateFrame(c, part, v);
      && ReadPart(c, f.columnBefore, f.columnAfter) == Some(S.Upper(part))
      && f.columnAfter != ""
  {
    match c.dialect
    case SQLite => SqlitePart(c, part, v);
    case Postgres => PostgresPart(c, part, v);
    case SqlServer(_) => SqlServerPart(c, part, v);
    case Oracle(_) => OraclePart(c, part, v);
    case _ =>
      InsideReads("", S.Upper(part), "(");
      assert "" + S.Upper(part) + "(" == S.Upper(part) + "(";
  }

  lemma {:induction false} SqlitePart(c: Compiler, part: string, v: Value)
    requires c.dialect.SQLite? && Mapped(c, part)
    ensures var f := DateFrame(c, part, v); ReadPart(c, f.columnBefore, f.columnAfter) == Some(S.Upper(part)) && f.columnAfter == ")"
  {
    FormatReads(part);
    InsideReads("strftime('", StrftimeFormat(part), "', ");
    hide StrftimeFormat, OfFormat, S.Upper, Inside;
  }

  lemma {:induction false} PostgresPart(c: Compiler, part: string, v: Value)
    requires c.dialect.Postgres?
    ensures var f := DateFrame(c, part, v); ReadPart(c, f.columnBefore, f.columnAfter) == Some(S.Upper(part)) && f.columnAfter != ""
  {
    UpperParts();
    InsideReads("DATE_PART('", S.Upper(part), "', ");
    assert |"::time"| == 6 && |"::date"| == 6 && |")"| == 1 && "::time"[2] != "::date"[2];
    hide S.Upper, Inside;
  }

  lemma {:induction false} SqlServerPart(c: Compiler, part: string, v: Value)
    requires c.dialect.SqlServer?
    ensures var f := DateFrame(c, part, v); ReadPart(c, f.columnBefore, f.columnAfter) == Some(S.Upper(part)) && f.columnAfter != ""
  {
    var upper := S.Upper(part);
    InsideReads("DATEPART(", upper, ", ");
    InsideReads(" AS ", upper, ")");
    assert ("DATEPART(" + upper + ", ")[0] == 'D' && "CAST("[0] == 'C';
    hide S.Upper, Inside;
  }

  lemma {:induction false} OraclePart(c: Compiler, part: string, v: Value)
    requires c.dialect.Oracle? && Mapped(c, part)
    ensures var f := DateFrame(c, part, v); ReadPart(c, f.columnBefore, f.columnAfter) == Some(S.Upper(part)) && f.columnAfter != ""
  {
    var upper := S.Upper(part);
    UpperParts();
    InsideReads("EXTRACT(", upper, " FROM ");
    hide S.Upper, Inside, S.CountChar, ValueString;
    assert ("EXTRACT(" + upper + " FROM ")[0] == 'E' && "TO_CHAR("[0] == 'T';
    assert |", 'YY-MM-DD')"| == 13 && |", 'HH24:MI:SS')"| == 15;
  }

  /** The text around the value holds no operand of its own. */
  lemma {:induction false} ValueReads(env: Env, v: Value, before: string, after: string)
    requires T.Defined(env, v)
    ensures ReadOperandIn(Maybe(before) + Parameter(env, v).sql + Maybe(after)) == Some(T.OperandOf(env, v))
  {
    T.OperandReads(env, v);
    hide Parameter, T.OperandOf;
    var t := Parameter(env, v).sql[0];
    assert Parameter(env, v).sql == [t];
    var ts := Maybe(before) + [t] + Maybe(after);
    assert before == "" ==> ts[0] == t;
    assert before != "" ==> ts[0] == Sym(before) && ts[1] == t;
  }

  /** A date comparison, printed without its negation, compares the part of the column
      that its shape names with its value, in every dialect that has a form for it. */
  lemma {:induction false} DateReads(c: Compiler, env: Env, part: string, column: string, op: string, v: Value)
    requires Mapped(c, part) && c.Allows(op) && T.Defined(env, v)
    ensures ReadDated(c, DateOut(c, env, part, column, op, v).sql) == Some(Dated(S.Upper(part), column, S.Lower(op), T.OperandOf(env, v)))
  {
    var f := DateFrame(c, part, v);
    PartReads(c, part, v);
    ValueReads(env, v, f.valueBefore, f.valueAfter);
    var rest := Maybe(f.valueBefore) + Parameter(env, v).sql + Maybe(f.valueAfter);
    hide DateFrame, ReadPart, Parameter, ReadOperandIn, T.OperandOf, S.Lower, S.Upper, Mapped, ReadDated;
    var op' := Sym(S.Lower(op));
    if f.columnBefore == "" {
      BareReads(c, Ident(column), f.columnAfter, op', rest, S.Upper(part));
      BareText(Ident(column), f.columnAfter, op', Maybe(f.valueBefore), Parameter(env, v).sql, Maybe(f.valueAfter));
    } else {
      FramedReads(c, f.columnBefore, Ident(column), f.columnAfter, op', rest, S.Upper(part));
      FramedText(f.columnBefore, Ident(column), f.columnAfter, op', Maybe(f.valueBefore), Parameter(env, v).sql, Maybe(f.valueAfter));
    }
  }

  lemma {:induction false} BareReads(c: Compiler, column: Token, after: string, op: Token, rest: seq<Token>, part: string)
    requires column.Ident? && op.Sym? && ReadPart(c, "", after) == Some(part) && ReadOperandIn(rest).Some?
    ensures ReadDated(c, [column, Sym(after), op] + rest) == Some(Dated(part, column.name, op.text, ReadOperandIn(rest).value))
  {
    hide ReadPart, T.ReadOperand;
    assert ([column, Sym(after), op] + rest)[3..] == rest;
  }

  lemma {:induction false} FramedReads(c: Compiler, before: string, column: Token, after: string, op: Token, rest: seq<Token>, part: string)
    requires column.Ident? && op.Sym? && ReadPart(c, before, after) == Some(part) && ReadOperandIn(rest).Some?
    ensures ReadDated(c, [Sym(before), column, Sym(after), op] + rest) == Some(Dated(part, column.name, op.text, ReadOperandIn(rest).value))
  {
    hide ReadPart, T.ReadOperand;
    assert ([Sym(before), column, Sym(after), op] + rest)[4..] == rest;
  }

  lemma {:induction false} BareText(column: Token, after: string, op: Token, a: seq<Token>, b: seq<Token>, d: seq<Token>)
    ensures [] + [column] + [Sym(after)] + [op] + a + b + d == [column, Sym(after), op] + (a + b + d)
  {
  }

  lemma {:induction false} FramedText(before: string, column: Token, after: string, op: Token, a: seq<Token>, b: seq<Token>, d: seq<Token>)
    ensures [Sym(before)] + [column] + [Sym(after)] + [op] + a + b + d == [Sym(before), column, Sym(after), op] + (a + b + d)
  {
  }
}
