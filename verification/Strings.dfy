/** The string loops of the compiler: marker substitution in raw SQL, quoting of
    identifiers, and a reader of delimited identifiers against which the quoting
    is proved.  Strings are ASCII. */
module Strings {

  /** A dialect's pair of identifier quotes. */
  datatype Quotes = Quotes(open: char, close: char) {
    /** Every dialect's pair satisfies this: the quotes are not confused with the
        segment separator, the star, a placeholder, a backslash or a brace. */
    predicate Proper() {
      && open !in "*.?\\{}" && close !in "*.?\\{}"
    }
  }

  // ----- marker substitution ------------------------------------------------

  /** Replaces `mark` by `repl`, except that a backslash before `mark` keeps `mark`
      and is dropped. */
  function ReplaceUnlessEscaped(input: string, mark: char, repl: string): string {
    if input == "" then ""
    else if input[0] == '\\' && |input| > 1 && input[1] == mark then
      [mark] + ReplaceUnlessEscaped(input[2..], mark, repl)
    else if input[0] == mark then
      repl + ReplaceUnlessEscaped(input[1..], mark, repl)
    else
      [input[0]] + ReplaceUnlessEscaped(input[1..], mark, repl)
  }

  /** The loop of the source, over an index and a growing buffer. */
  method ReplaceUnlessEscapedLoop(input: string, mark: char, repl: string) returns (b: string)
    ensures b == ReplaceUnlessEscaped(input, mark, repl)
  {
    hide ReplaceUnlessEscaped;
    b := "";
    var i := 0;
    assert input[0..] == input;
    while i < |input|
      invariant 0 <= i <= |input|
      invariant b + ReplaceUnlessEscaped(input[i..], mark, repl) == ReplaceUnlessEscaped(input, mark, repl)
    {
      ReplaceStep(input, i, mark, repl);
      if input[i] == '\\' && i + 1 < |input| && input[i + 1] == mark {
        b := b + [mark];
        i := i + 2;
      } else if input[i] == mark {
        b := b + repl;
        i := i + 1;
      } else {
        b := b + [input[i]];
        i := i + 1;
      }
    }
    ReplaceNothing(mark, repl);
    assert input[i..] == "" && b + "" == b;
  }

  lemma {:induction false} ReplaceNothing(mark: char, repl: string)
    ensures ReplaceUnlessEscaped("", mark, repl) == ""
  {
  }

  /** One turn of the loop. */
  lemma {:induction false} ReplaceStep(input: string, i: nat, mark: char, repl: string)
    requires i < |input|
    ensures ReplaceUnlessEscaped(input[i..], mark, repl) ==
      if input[i] == '\\' && i + 1 < |input| && input[i + 1] == mark then
        [mark] + ReplaceUnlessEscaped(input[i + 2..], mark, repl)
      else if input[i] == mark then repl + ReplaceUnlessEscaped(input[i + 1..], mark, repl)
      else [input[i]] + ReplaceUnlessEscaped(input[i + 1..], mark, repl)
  {
    assert input[i..][1..] == input[i + 1..];
    if i + 1 < |input| { assert input[i..][2..] == input[i + 2..]; }
  }

  /** The four passes over a raw SQL expression. */
  function WrapIdentifiers(q: Quotes, input: string): string {
    var a := ReplaceUnlessEscaped(input, '{', [q.open]);
    var b := ReplaceUnlessEscaped(a, '}', [q.close]);
    var c := ReplaceUnlessEscaped(b, '[', [q.open]);
    ReplaceUnlessEscaped(c, ']', [q.close])
  }

  /** Puts a backslash before every character of `marks`. */
  function Escape(s: string, marks: string): string {
    if s == "" then ""
    else (if s[0] in marks then ['\\', s[0]] else [s[0]]) + Escape(s[1..], marks)
  }

  /** One pass undoes the escaping of its own marker and keeps the others'. */
  lemma {:induction false} PassUnescapes(s: string, m: char, marks: string, repl: string)
    requires m != '\\' && '\\' !in marks && m !in marks
    ensures ReplaceUnlessEscaped(Escape(s, [m] + marks), m, repl) == Escape(s, marks)
  {
    if s != "" {
      PassUnescapes(s[1..], m, marks, repl);
      var rest := Escape(s[1..], [m] + marks);
      var whole := Escape(s, [m] + marks);
      HeadIsNoMark(s[1..], m, [m] + marks);
      if s[0] == m {
        assert whole[2..] == rest;
      } else if s[0] in marks {
        assert whole == ['\\', s[0]] + rest;
        assert whole[1..] == [s[0]] + rest;
        assert whole[1..][1..] == rest;
      } else {
        assert whole == [s[0]] + rest;
        assert whole[1..] == rest;
      }
    }
  }

  /** Escaped text never starts with an escaped mark itself. */
  lemma {:induction false} HeadIsNoMark(s: string, m: char, marks: string)
    requires m in marks && m != '\\'
    ensures var t := Escape(s, marks); t != "" ==> t[0] != m
  {
  }

  lemma {:induction false} EscapeNothing(s: string)
    ensures Escape(s, "") == s
  {
    if s != "" { EscapeNothing(s[1..]); }
  }

  /** Escaping the four markers and running the four passes of any dialect
      returns the original string. */
  lemma {:induction false} MarkerRoundTrip(q: Quotes, s: string)
    ensures WrapIdentifiers(q, Escape(s, "{}[]")) == s
  {
    assert ['{'] + "}[]" == "{}[]" && ['}'] + "[]" == "}[]" && ['['] + "]" == "[]" && [']'] + "" == "]";
    PassUnescapes(s, '{', "}[]", [q.open]);
    PassUnescapes(s, '}', "[]", [q.close]);
    PassUnescapes(s, '[', "]", [q.open]);
    PassUnescapes(s, ']', "", [q.close]);
    EscapeNothing(s);
  }

  lemma {:induction false} PassKeepsUnmarked(s: string, m: char, repl: string)
    requires m !in s
    ensures ReplaceUnlessEscaped(s, m, repl) == s
  {
    if s != "" { PassKeepsUnmarked(s[1..], m, repl); }
  }

  // ----- what the four passes mean -------------------------------------------

  /** The pairs that no pass takes for a marker of another kind: the quotes of every
      dialect. */
  predicate Unconfused(q: Quotes) { (q.open == '[' || q.open !in "{}[]\\") && (q.close == ']' || q.close !in "{}[]\\") }

  /** One reading of a raw expression, for some of the markers: a backslash takes its
      meaning from a marker, an opening marker becomes the opening quote and a closing
      one the closing quote. */
  function Scan(q: Quotes, marks: string, s: string): string {
    if s == "" then ""
    else if s[0] == '\\' && |s| > 1 && s[1] in marks then [s[1]] + Scan(q, marks, s[2..])
    else [if s[0] in marks then Quote(q, s[0]) else s[0]] + Scan(q, marks, s[1..])
  }

  function Quote(q: Quotes, mark: char): char { if mark == '{' || mark == '[' then q.open else q.close }

  /** How a reading begins: never like a marker it does not know, unless the text does. */
  lemma {:induction false} ScanHead(q: Quotes, marks: string, m: char, s: string)
    requires Unconfused(q) && m in "{}[]" && m !in marks && s != "" && s[0] != m && s[0] !in marks
    ensures Scan(q, marks, s) != "" && Scan(q, marks, s)[0] != m
  {
  }

  /** A further pass adds its marker to the reading. */
  lemma {:induction false} PassScans(q: Quotes, marks: string, m: char, s: string)
    requires Unconfused(q) && m in "{}[]" && m !in marks && forall ch <- marks :: ch in "{}[]"
    ensures ReplaceUnlessEscaped(Scan(q, marks, s), m, [Quote(q, m)]) == Scan(q, marks + [m], s)
    decreases |s|
  {
    if s == "" {
    } else if s[0] == '\\' && |s| > 1 && s[1] in marks {
      PassScans(q, marks, m, s[2..]);
      Kept(s[1], Scan(q, marks, s[2..]), m, [Quote(q, m)]);
    } else if s[0] == '\\' && |s| > 1 && s[1] == m {
      PassScans(q, marks, m, s[2..]);
      var more := Scan(q, marks, s[2..]);
      assert s[1..][0] == m && s[1..][1..] == s[2..];
      assert Scan(q, marks, s[1..]) == [m] + more;
      assert (['\\', m] + more)[2..] == more;
      assert Scan(q, marks, s) == ['\\'] + ([m] + more) == ['\\', m] + more;
    } else {
      PassScans(q, marks, m, s[1..]);
      var more := Scan(q, marks, s[1..]);
      if s[0] == '\\' {
        if |s| > 1 { ScanHead(q, marks, m, s[1..]); }
        KeptBackslash(more, m, [Quote(q, m)]);
      } else if s[0] in marks {
        QuoteStays(q, s[0], m, more);
      } else if s[0] == m {
        assert ([m] + more)[1..] == more;
      } else {
        Kept(s[0], more, m, [Quote(q, m)]);
      }
    }
  }

  lemma {:induction false} Kept(ch: char, more: string, m: char, repl: string)
    requires ch != m && ch != '\\'
    ensures ReplaceUnlessEscaped([ch] + more, m, repl) == [ch] + ReplaceUnlessEscaped(more, m, repl)
  {
    assert ([ch] + more)[1..] == more;
  }

  lemma {:induction false} KeptBackslash(more: string, m: char, repl: string)
    requires m != '\\' && (more == "" || more[0] != m)
    ensures ReplaceUnlessEscaped(['\\'] + more, m, repl) == ['\\'] + ReplaceUnlessEscaped(more, m, repl)
  {
    assert (['\\'] + more)[1..] == more;
    if more != "" { assert (['\\'] + more)[1] == more[0]; }
  }

  /** A quote already put in is no marker of a later pass, or is its own replacement. */
  lemma {:induction false} QuoteStays(q: Quotes, mark: char, m: char, more: string)
    requires Unconfused(q) && mark in "{}[]" && m in "{}[]" && mark != m
    ensures var quote := Quote(q, mark);
      ReplaceUnlessEscaped([quote] + more, m, [Quote(q, m)]) == [quote] + ReplaceUnlessEscaped(more, m, [Quote(q, m)])
  {
    assert ([Quote(q, mark)] + more)[1..] == more;
  }

  lemma {:induction false} ScanNothing(q: Quotes, s: string)
    ensures Scan(q, "", s) == s
  {
    if s != "" { ScanNothing(q, s[1..]); }
  }

  /** The four passes are one reading: each pair of markers becomes the pair of quotes,
      and an escaped marker is itself. */
  lemma {:induction false} MarkersAreQuotes(q: Quotes, s: string)
    requires Unconfused(q)
    ensures WrapIdentifiers(q, s) == Scan(q, "{}[]", s)
  {
    ScanNothing(q, s);
    assert "" + ['{'] == "{" && "{" + ['}'] == "{}" && "{}" + ['['] == "{}[" && "{}[" + [']'] == "{}[]";
    PassScans(q, "", '{', s);
    PassScans(q, "{", '}', s);
    PassScans(q, "{}", '[', s);
    PassScans(q, "{}[", ']', s);
  }

  /** A text without markers behind another is left alone. */
  lemma {:induction false} ScanThen(q: Quotes, s: string, t: string)
    requires forall ch <- t :: ch !in "{}[]"
    ensures Scan(q, "{}[]", s + t) == Scan(q, "{}[]", s) + t
    decreases |s|
  {
    if s == "" {
      ScanPlain(q, t);
      assert s + t == t;
    } else if s[0] == '\\' && |s| > 1 && s[1] in "{}[]" {
      assert (s + t)[2..] == s[2..] + t;
      ScanThen(q, s[2..], t);
    } else {
      assert (s + t)[1..] == s[1..] + t;
      ScanThen(q, s[1..], t);
      if |s| == 1 && t != "" { assert (s + t)[1] == t[0] && t[0] in t; }
    }
  }

  lemma {:induction false} ScanPlain(q: Quotes, t: string)
    requires forall ch <- t :: ch !in "{}[]"
    ensures Scan(q, "{}[]", t) == t
  {
    if t != "" {
      assert t[0] in t && forall ch <- t[1..] :: ch in t;
      ScanPlain(q, t[1..]);
    }
  }

  /** A string without markers is unchanged. */
  lemma {:induction false} UnmarkedIsKept(q: Quotes, s: string)
    requires '{' !in s && '}' !in s && '[' !in s && ']' !in s
    ensures WrapIdentifiers(q, s) == s
  {
    PassKeepsUnmarked(s, '{', [q.open]);
    PassKeepsUnmarked(s, '}', [q.close]);
    PassKeepsUnmarked(s, '[', [q.open]);
    PassKeepsUnmarked(s, ']', [q.close]);
  }

  // ----- placeholders survive the substitution ------------------------------

  /** The number of placeholders in a raw expression. */
  function Placeholders(s: string): nat {
    if s == "" then 0 else (if s[0] == '?' then 1 else 0) + Placeholders(s[1..])
  }

  lemma {:induction false} PassKeepsPlaceholders(s: string, m: char, r: char)
    requires m !in "?\\" && r != '?'
    ensures Placeholders(ReplaceUnlessEscaped(s, m, [r])) == Placeholders(s)
  {
    if s == "" {
    } else if s[0] == '\\' && |s| > 1 && s[1] == m {
      PassKeepsPlaceholders(s[2..], m, r);
      assert s[1..][1..] == s[2..];
      var out := ReplaceUnlessEscaped(s, m, [r]);
      assert out[1..] == ReplaceUnlessEscaped(s[2..], m, [r]);
    } else {
      PassKeepsPlaceholders(s[1..], m, r);
      var out := ReplaceUnlessEscaped(s, m, [r]);
      assert out[1..] == ReplaceUnlessEscaped(s[1..], m, [r]);
    }
  }

  /** Marker substitution neither adds nor removes a placeholder. */
  lemma {:induction false} WrapKeepsPlaceholders(q: Quotes, s: string)
    requires q.Proper()
    ensures Placeholders(WrapIdentifiers(q, s)) == Placeholders(s)
  {
    var a := ReplaceUnlessEscaped(s, '{', [q.open]);
    var b := ReplaceUnlessEscaped(a, '}', [q.close]);
    var c := ReplaceUnlessEscaped(b, '[', [q.open]);
    PassKeepsPlaceholders(s, '{', q.open);
    PassKeepsPlaceholders(a, '}', q.close);
    PassKeepsPlaceholders(b, '[', q.open);
    PassKeepsPlaceholders(c, ']', q.close);
  }

  // ----- substituting twice ---------------------------------------------------

  /** Whether some backslash stands directly before `m`. */
  predicate Escaped(s: string, m: char) {
    exists i :: 0 <= i < |s| - 1 && s[i] == '\\' && s[i + 1] == m
  }

  /** With a one-character replacement a pass drops exactly the escaping
      backslashes; without them it works character by character. */
  lemma {:induction false} PassLength(s: string, m: char, r: char)
    requires m != '\\'
    ensures var t := ReplaceUnlessEscaped(s, m, [r]);
      && |t| <= |s|
      && (|t| == |s| <==> !Escaped(s, m))
      && (!Escaped(s, m) ==> forall i :: 0 <= i < |s| ==> t[i] == if s[i] == m then r else s[i])
  {
    if s == "" {
    } else if s[0] == '\\' && |s| > 1 && s[1] == m {
      PassLength(s[2..], m, r);
    } else {
      PassLength(s[1..], m, r);
      if Escaped(s[1..], m) {
        var i :| 0 <= i < |s| - 2 && s[1..][i] == '\\' && s[1..][i + 1] == m;
        assert s[i + 1] == '\\' && s[i + 2] == m;
      }
      if Escaped(s, m) {
        var i :| 0 <= i < |s| - 1 && s[i] == '\\' && s[i + 1] == m;
        assert i > 0 && s[1..][i - 1] == '\\' && s[1..][i] == m;
      }
    }
  }

  /** SQL Server's legacy pagination feeds ordering text that was already
      substituted through the substitution again.  The second run changes nothing
      exactly when the text holds no brace and no escaped bracket. */
  lemma {:induction false} SecondSubstitution(t: string)
    ensures WrapIdentifiers(Quotes('[', ']'), t) == t
      <==> '{' !in t && '}' !in t && !Escaped(t, '[') && !Escaped(t, ']')
  {
    var a := ReplaceUnlessEscaped(t, '{', "[");
    var b := ReplaceUnlessEscaped(a, '}', "]");
    var c := ReplaceUnlessEscaped(b, '[', "[");
    var d := ReplaceUnlessEscaped(c, ']', "]");
    PassLength(t, '{', '[');
    PassLength(a, '}', ']');
    PassLength(b, '[', '[');
    PassLength(c, ']', ']');
    if '{' !in t && '}' !in t && !Escaped(t, '[') && !Escaped(t, ']') {
      assert a == t;
      assert b == t;
      assert c == t;
      assert d == t;
    }
    if d == t {
      assert |a| == |t| && |b| == |t| && |c| == |t|;
      assert c == b && d == c;
      assert a == t;
      assert b == t;
    }
  }

  // ----- identifiers ----------------------------------------------------------

  function Lower(s: string): (r: string)
    ensures |r| == |s|
  {
    if s == "" then ""
    else [if 'A' <= s[0] <= 'Z' then s[0] + 32 as char else s[0]] + Lower(s[1..])
  }

  function Upper(s: string): string {
    if s == "" then ""
    else [if 'a' <= s[0] <= 'z' then s[0] - 32 as char else s[0]] + Upper(s[1..])
  }

  function CountChar(s: string, c: char): nat {
    if s == "" then 0 else (if s[0] == c then 1 else 0) + CountChar(s[1..], c)
  }

  /** The last position of `pat` in `s`, or -1. */
  function LastIndex(s: string, pat: string): (i: int)
    ensures -1 <= i
    ensures i >= 0 ==> i + |pat| <= |s| && s[i..i + |pat|] == pat
    decreases |s|
  {
    if |s| < |pat| then -1
    else if s[|s| - |pat|..] == pat then |s| - |pat|
    else if s == "" then -1
    else
      var i := LastIndex(s[..|s| - 1], pat);
      assert i >= 0 ==> s[..|s| - 1][i..i + |pat|] == s[i..i + |pat|];
      i
  }

  /** "expr as alias": case-insensitive, the last " as " wins; the alias is
      empty when there is none. */
  function SplitAlias(value: string): (r: (string, string))
    ensures r.1 != "" ==> |r.0| + 4 + |r.1| == |value| && r.0 == value[..|r.0|]
  {
    var i := LastIndex(Lower(value), " as ");
    if i > 0 then (value[..i], value[i + 4..]) else (value, "")
  }

  function Double(s: string, c: char): string {
    if s == "" then "" else (if s[0] == c then [c, c] else [s[0]]) + Double(s[1..], c)
  }

  function WrapValue(q: Quotes, value: string): string {
    if value == "*" then value else [q.open] + Double(value, q.close) + [q.close]
  }

  function Split(s: string): (r: seq<string>)
    ensures |r| > 0
  {
    if s == "" then [""]
    else
      var rest := Split(s[1..]);
      if s[0] == '.' then [""] + rest else [[s[0]] + rest[0]] + rest[1..]
  }

  function JoinWrapped(q: Quotes, parts: seq<string>): string
    requires |parts| > 0
  {
    if |parts| == 1 then WrapValue(q, parts[0])
    else WrapValue(q, parts[0]) + "." + JoinWrapped(q, parts[1..])
  }

  /** Quotes a column or table name: alias first, then the dotted segments.
      `keyword` is the dialect's "AS " (or nothing). */
  function Wrap(q: Quotes, keyword: string, value: string): string
    decreases |value|
  {
    var (expr, alias) := SplitAlias(value);
    if alias != "" then Wrap(q, keyword, expr) + " " + keyword + WrapValue(q, alias)
    else if '.' in value then JoinWrapped(q, Split(value))
    else WrapValue(q, value)
  }

  // ----- the reader -----------------------------------------------------------

  datatype Option<+T> = None | Some(value: T)

  /** Reads up to the first closing quote that is not doubled; a doubled quote
      stands for one (section 5.2 of SQL-92, delimited identifier). */
  function ReadBody(t: string, close: char): Option<(string, string)> {
    if t == "" then None
    else if t[0] == close then
      if |t| > 1 && t[1] == close then
        match ReadBody(t[2..], close)
        case Some((s, rest)) => Some(([close] + s, rest))
        case None => None
      else Some(("", t[1..]))
    else
      match ReadBody(t[1..], close)
      case Some((s, rest)) => Some(([t[0]] + s, rest))
      case None => None
  }

  function ReadSegment(t: string, q: Quotes): Option<(string, string)> {
    if t == "" then None
    else if t[0] == '*' then Some(("*", t[1..]))
    else if t[0] == q.open then ReadBody(t[1..], q.close)
    else None
  }

  lemma {:induction false} ReadBodyShrinks(t: string, close: char)
    ensures var r := ReadBody(t, close); r.Some? ==> |r.value.1| < |t|
  {
    if t != "" {
      if t[0] == close {
        if |t| > 1 && t[1] == close { ReadBodyShrinks(t[2..], close); }
      } else {
        ReadBodyShrinks(t[1..], close);
      }
    }
  }

  /** Reads dot-separated delimited identifiers. */
  function ReadName(t: string, q: Quotes): Option<seq<string>>
    decreases |t|
  {
    match ReadSegment(t, q)
    case None => None
    case Some((s, rest)) =>
      if rest == "" then Some([s])
      else if rest[0] != '.' then None
      else
        assert |rest| < |t| by { ReadBodyShrinks(t[1..], q.close); }
        match ReadName(rest[1..], q)
        case None => None
        case Some(more) => Some([s] + more)
  }

  lemma {:induction false} ReadBodyUndoubles(v: string, close: char, rest: string)
    requires rest == "" || rest[0] != close
    ensures ReadBody(Double(v, close) + [close] + rest, close) == Some((v, rest))
  {
    var t := Double(v, close) + [close] + rest;
    if v == "" {
      assert t[1..] == rest;
    } else {
      ReadBodyUndoubles(v[1..], close, rest);
      var tail := Double(v[1..], close) + [close] + rest;
      if v[0] == close {
        assert t[2..] == tail;
        assert [v[0]] + v[1..] == v;
      } else {
        assert t[0] == v[0] && t[1..] == tail;
        assert [v[0]] + v[1..] == v;
      }
    }
  }

  lemma {:induction false} ReadSegmentUnwraps(q: Quotes, v: string, rest: string)
    requires q.Proper()
    requires rest == "" || rest[0] == '.'
    ensures ReadSegment(WrapValue(q, v) + rest, q) == Some((v, rest))
  {
    var t := WrapValue(q, v) + rest;
    if v == "*" {
      assert t[1..] == rest;
    } else {
      ReadBodyUndoubles(v, q.close, rest);
      hide ReadBody, Double;
      assert t[1..] == Double(v, q.close) + [q.close] + rest;
    }
  }

  lemma {:induction false} ReadNameUnwraps(q: Quotes, parts: seq<string>)
    requires q.Proper() && |parts| > 0
    ensures ReadName(JoinWrapped(q, parts), q) == Some(parts)
  {
    if |parts| == 1 {
      ReadSegmentUnwraps(q, parts[0], "");
      assert WrapValue(q, parts[0]) + "" == WrapValue(q, parts[0]);
      assert parts == [parts[0]];
    } else {
      var more := JoinWrapped(q, parts[1..]);
      ReadSegmentUnwraps(q, parts[0], "." + more);
      ReadNameUnwraps(q, parts[1..]);
      assert WrapValue(q, parts[0]) + "." + more == WrapValue(q, parts[0]) + ("." + more);
      assert ("." + more)[1..] == more;
      assert parts == [parts[0]] + parts[1..];
    }
  }

  lemma {:induction false} SplitUndotted(s: string)
    requires '.' !in s
    ensures Split(s) == [s]
  {
    if s != "" {
      SplitUndotted(s[1..]);
      assert [s[0]] + s[1..] == s;
    }
  }

  /** A name without an alias split is read back as exactly its dotted segments. */
  lemma {:induction false} QuotingRoundTrip(q: Quotes, keyword: string, name: string)
    requires q.Proper()
    requires SplitAlias(name).1 == ""
    ensures ReadName(Wrap(q, keyword, name), q) == Some(Split(name))
  {
    ReadNameUnwraps(q, Split(name));
    if '.' !in name { SplitUndotted(name); }
  }
}
