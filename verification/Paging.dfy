/** The pagination forms of all dialects, read back as row windows: LIMIT and
    OFFSET, TOP, OFFSET-FETCH, nested ROWNUM wraps and ROW_NUMBER filters. */
module Paging {
  import opened Ast
  import opened Dialects

  // ----- the window -------------------------------------------------------------------------

  function Skip<T>(rows: seq<T>, n: int): seq<T> { if n <= 0 then rows else if n >= |rows| then [] else rows[n..] }

  function Take<T>(rows: seq<T>, n: int): seq<T> { if n <= 0 then [] else if n >= |rows| then rows else rows[..n] }

  /** The rows of a page; a limit of 0 is unset. */
  function Window<T>(limit: int, offset: int, rows: seq<T>): seq<T> {
    if limit == 0 then Skip(rows, offset) else Take(Skip(rows, offset), limit)
  }

  // ----- reading the fragments -----------------------------------------------------------------

  predicate Bound(t: Token) { t.Hole? && t.slot.Filled? && t.slot.value.Num? }

  function Number(t: Token): int
    requires Bound(t)
  {
    t.slot.value.n
  }

  /** SQLite reads a negative LIMIT as no limit. */
  function Limited<T>(rows: seq<T>, n: int): seq<T> { if n < 0 then rows else Take(rows, n) }

  // The fixed texts of the pagination sections.
  predicate IsLimit(t: Token) { t == Sym("LIMIT") }
  predicate IsOffset(t: Token) { t == Sym("OFFSET") }
  predicate IsCeiling(t: Token) { t == Sym("LIMIT 18446744073709551615 OFFSET") }
  predicate IsUnlimited(t: Token) { t == Sym("LIMIT -1 OFFSET") }
  predicate IsFiller(t: Token) { t == Sym("ORDER BY (SELECT 0)") || t == Sym("ORDER BY (SELECT 0 FROM DUAL)") }
  predicate IsRows(t: Token) { t == Sym("ROWS") }
  predicate IsFetch(t: Token) { t == Sym("FETCH NEXT") }
  predicate IsOnly(t: Token) { t == Sym("ROWS ONLY") }
  predicate OpensTop(t: Token) { t == Sym("TOP (") }

  /** A pagination section read from its tokens, as the row-limiting clauses of the
      dialects define it; None for anything else. */
  function TailRows<T>(ts: seq<Token>, rows: seq<T>): Option<seq<T>> {
    if ts == [] then Some(rows)
    else if |ts| == 2 && Bound(ts[1]) then
      if IsLimit(ts[0]) then Some(Limited(rows, Number(ts[1])))
      else if IsOffset(ts[0]) then Some(Skip(rows, Number(ts[1])))
      else if IsCeiling(ts[0]) then Some(Limited(Skip(rows, Number(ts[1])), 18446744073709551615))
      else if IsUnlimited(ts[0]) then Some(Limited(Skip(rows, Number(ts[1])), -1))
      else None
    else if |ts| == 4 && IsLimit(ts[0]) && Bound(ts[1]) && IsOffset(ts[2]) && Bound(ts[3]) then
      Some(Limited(Skip(rows, Number(ts[3])), Number(ts[1])))
    else FetchRows(if IsFiller(ts[0]) then ts[1..] else ts, rows)
  }

  function FetchRows<T>(ts: seq<Token>, rows: seq<T>): Option<seq<T>> {
    if |ts| >= 3 && IsOffset(ts[0]) && Bound(ts[1]) && IsRows(ts[2]) then
      var rest := Skip(rows, Number(ts[1]));
      if |ts| == 3 then Some(rest)
      else if |ts| == 6 && IsFetch(ts[3]) && Bound(ts[4]) && IsOnly(ts[5]) then Some(Take(rest, Number(ts[4])))
      else None
    else None
  }

  function TopRows<T>(ts: seq<Token>, rows: seq<T>): Option<seq<T>> {
    if ts == [] then Some(rows)
    else if |ts| == 3 && OpensTop(ts[0]) && Bound(ts[1]) && ts[2] == Sym(")") then Some(Take(rows, Number(ts[1])))
    else None
  }

  // ----- row numbers ------------------------------------------------------------------------------

  datatype Numbered<T> = Numbered(number: int, row: T)

  /** Numbers given to rows one by one, from the next number on. */
  function Numbers<T>(rows: seq<T>, next: int): seq<Numbered<T>> {
    if rows == [] then [] else [Numbered(next, rows[0])] + Numbers(rows[1..], next + 1)
  }

  function Plain<T>(rows: seq<Numbered<T>>): seq<T> {
    if rows == [] then [] else [rows[0].row] + Plain(rows[1..])
  }

  /** WHERE ROWNUM <= k: a row gets the next number when it passes, and only then
      does the number advance. */
  function RownumAtMost<T>(rows: seq<T>, k: int, next: int): seq<Numbered<T>> {
    if rows == [] then []
    else if next <= k then [Numbered(next, rows[0])] + RownumAtMost(rows[1..], k, next + 1)
    else RownumAtMost(rows[1..], k, next)
  }

  /** Rows whose number lies in a range; hi is None for no upper bound. */
  function Between<T>(rows: seq<Numbered<T>>, lo: int, hi: Option<int>): seq<Numbered<T>> {
    if rows == [] then []
    else
      (if lo <= rows[0].number && (hi.Some? ==> rows[0].number <= hi.value) then [rows[0]] else [])
      + Between(rows[1..], lo, hi)
  }

  // The fixed texts around the embedded SELECT.
  predicate OpensPlain(t: Token) { t == Sym("SELECT * FROM (") }
  predicate OpensNumbered(t: Token) {
    t == Sym("SELECT * FROM (SELECT \"results_wrapper\".*, ROWNUM \"row_num\" FROM (")
  }
  predicate LimitsPlain(t: Token) { t == Sym(") WHERE ROWNUM <=") }
  predicate LimitsNumbered(t: Token) { t == Sym(") \"results_wrapper\" WHERE ROWNUM <=") }
  predicate SkipsUnlimited(t: Token) { t == Sym(") \"results_wrapper\") WHERE \"row_num\" >") }
  predicate SkipsLimited(t: Token) { t == Sym(") WHERE \"row_num\" >") }

  /** The rows of an Oracle ROWNUM wrap, given those of the SELECT inside. */
  function RownumRows<T>(ts: seq<Token>, rows: seq<T>): Option<seq<T>> {
    if |ts| < 4 || !ts[1].Inner? || !Bound(ts[3]) then None
    else if |ts| == 4 && OpensPlain(ts[0]) && LimitsPlain(ts[2]) then
      Some(Plain(RownumAtMost(rows, Number(ts[3]), 1)))
    else if |ts| == 4 && OpensNumbered(ts[0]) && SkipsUnlimited(ts[2]) then
      Some(Plain(Between(Numbers(rows, 1), Number(ts[3]) + 1, None)))
    else if |ts| == 6 && OpensNumbered(ts[0]) && LimitsNumbered(ts[2]) && SkipsLimited(ts[4]) && Bound(ts[5]) then
      Some(Plain(Between(RownumAtMost(rows, Number(ts[3]), 1), Number(ts[5]) + 1, None)))
    else None
  }

  predicate Filters(ts: seq<Token>) { ts == [Sym(") AS"), Ident("results_wrapper"), Sym("WHERE"), Ident("row_num")] }
  predicate AtLeast(t: Token) { t == Sym(">=") }
  predicate InBetween(t: Token) { t == Sym("BETWEEN") }

  /** The rows of a SQL Server ROW_NUMBER wrap, given those of the SELECT inside,
      which carry their numbers in the order of its OVER clause. */
  function RowNumberRows<T>(ts: seq<Token>, rows: seq<T>): Option<seq<T>> {
    if |ts| < 8 || !OpensPlain(ts[0]) || !ts[1].Inner? || !Filters(ts[2..6]) || !Bound(ts[7]) then None
    else if |ts| == 8 && AtLeast(ts[6]) then Some(Plain(Between(Numbers(rows, 1), Number(ts[7]), None)))
    else if |ts| == 10 && InBetween(ts[6]) && ts[8] == Sym("AND") && Bound(ts[9]) then
      Some(Plain(Between(Numbers(rows, 1), Number(ts[7]), Some(Number(ts[9])))))
    else None
  }

  // ----- what numbering keeps ---------------------------------------------------------------------------

  lemma {:induction false} SkipCons<T>(rows: seq<T>, n: int)
    requires rows != []
    ensures Skip(rows, n) == if n <= 0 then rows else Skip(rows[1..], n - 1)
  {
  }

  lemma {:induction false} TakeCons<T>(rows: seq<T>, n: int)
    requires rows != []
    ensures Take(rows, n) == if n <= 0 then [] else [rows[0]] + Take(rows[1..], n - 1)
  {
    assert rows == [rows[0]] + rows[1..];
  }

  lemma {:induction false} BetweenFrom<T>(rows: seq<T>, next: int, lo: int)
    ensures Plain(Between(Numbers(rows, next), lo, None)) == Skip(rows, lo - next)
  {
    if rows != [] {
      BetweenFrom(rows[1..], next + 1, lo);
      SkipCons(rows, lo - next);
      assert Numbers(rows, next)[1..] == Numbers(rows[1..], next + 1);
      var rest := Between(Numbers(rows[1..], next + 1), lo, None);
      hide Skip;
      if lo <= next {
        SkipNothing(rows[1..], lo - next - 1);
        assert ([Numbered(next, rows[0])] + rest)[1..] == rest;
        assert rows == [rows[0]] + rows[1..];
      } else {
        assert [] + rest == rest;
      }
    }
  }

  lemma {:induction false} SkipNothing<T>(rows: seq<T>, n: int)
    requires n <= 0
    ensures Skip(rows, n) == rows
  {
  }

  lemma {:induction false} BetweenUpTo<T>(rows: seq<T>, next: int, lo: int, hi: int)
    ensures Plain(Between(Numbers(rows, next), lo, Some(hi))) == Take(Skip(rows, lo - next), hi - (if lo > next then lo else next) + 1)
  {
    if rows != [] {
      hide Skip, Take;
      BetweenUpTo(rows[1..], next + 1, lo, hi);
      SkipCons(rows, lo - next);
      BetweenCons(rows, next, lo, hi);
      if lo <= next {
        SkipNothing(rows[1..], lo - next - 1);
        TakeCons(rows, hi - next + 1);
        if next > hi {
          TakeNothing(rows[1..], hi - next);
          TakeNothing(rows, hi - next + 1);
        }
      }
    } else {
      NothingTaken(rows, lo - next, hi - (if lo > next then lo else next) + 1);
    }
  }

  lemma {:induction false} NothingTaken<T>(rows: seq<T>, n: int, k: int)
    ensures rows == [] ==> Take(Skip(rows, n), k) == []
  {
  }

  /** One row: in the range or not. */
  lemma {:induction false} BetweenCons<T>(rows: seq<T>, next: int, lo: int, hi: int)
    requires rows != []
    ensures Plain(Between(Numbers(rows, next), lo, Some(hi))) ==
      (if lo <= next <= hi then [rows[0]] else []) + Plain(Between(Numbers(rows[1..], next + 1), lo, Some(hi)))
  {
    assert Numbers(rows, next)[1..] == Numbers(rows[1..], next + 1);
    var rest := Between(Numbers(rows[1..], next + 1), lo, Some(hi));
    if lo <= next <= hi {
      assert ([Numbered(next, rows[0])] + rest)[1..] == rest;
    } else {
      assert [] + rest == rest;
    }
  }

  lemma {:induction false} TakeNothing<T>(rows: seq<T>, n: int)
    requires n <= 0
    ensures Take(rows, n) == []
  {
  }

  lemma {:induction false} RownumTakes<T>(rows: seq<T>, k: int, next: int)
    ensures RownumAtMost(rows, k, next) == Numbers(Take(rows, k - next + 1), next)
  {
    if rows != [] {
      RownumTakes(rows[1..], k, next + 1);
      RownumTakes(rows[1..], k, next);
      if next <= k {
        var taken := Take(rows, k - next + 1);
        assert taken[0] == rows[0] && taken[1..] == Take(rows[1..], k - next);
      }
    }
  }

  lemma {:induction false} PlainNumbers<T>(rows: seq<T>, next: int)
    ensures Plain(Numbers(rows, next)) == rows
  {
    if rows != [] {
      PlainNumbers(rows[1..], next + 1);
      assert Numbers(rows, next)[1..] == Numbers(rows[1..], next + 1);
      assert rows == [rows[0]] + rows[1..];
    }
  }

  lemma {:induction false} SkipTake<T>(rows: seq<T>, limit: int, offset: int)
    requires limit >= 0 && offset >= 0
    ensures Skip(Take(rows, limit + offset), offset) == Take(Skip(rows, offset), limit)
  {
  }

  // ----- one window -------------------------------------------------------------------------------------------

  /** The rows of a page in a dialect: its printed fragments, read back.  `body` is
      the SELECT without pagination, which returns `rows`. */
  function Paged<T>(c: Compiler, ordered: bool, limit: int, offset: int, body: Out, rows: seq<T>): Option<seq<T>> {
    match c.dialect
    case Oracle(true) =>
      if limit == 0 && offset == 0 then Some(rows) else RownumRows(RownumWrap(body, limit, offset).sql, rows)
    case SqlServer(true) =>
      if offset > 0 then RowNumberRows(RowNumberWrap(body, limit, offset).sql, rows)
      else TopRows(TopSection(c, limit, offset).sql, rows)
    case _ =>
      match TopRows(TopSection(c, limit, offset).sql, rows)
      case None => None
      case Some(top) => TailRows(LimitSection(c, ordered, limit, offset).sql, top)
  }

  /** What int64 holds; 0 is unset. */
  predicate Sized(limit: int, offset: int) { 0 <= limit < TWO_63 && 0 <= offset < TWO_63 }

  /** When the printed page of a dialect is the window: the upper bound of the legacy
      forms, and the lower bound of ROW_NUMBER, must not wrap around, unless the page
      lies behind the last row anyhow; and MySQL's ceiling must reach the last row. */
  predicate WindowFits(d: Dialect, limit: int, offset: int, count: nat) {
    match d
    case Oracle(true) => limit == 0 || offset == 0 || limit + offset < TWO_63 || count <= offset
    case SqlServer(true) =>
      offset == 0
      || if limit == 0 then offset + 1 < TWO_63 || count == 0 else limit + offset < TWO_63 || count <= offset
    case MySQL => limit == 0 && offset > 0 ==> count - offset < TWO_64
    case _ => true
  }

  /** What a page is when it is not the window: rows without an upper bound past the
      ones skipped are all rows, or the ceiling's; with one there are none. */
  function Returned<T>(d: Dialect, limit: int, offset: int, rows: seq<T>): seq<T> {
    if WindowFits(d, limit, offset, |rows|) then Window(limit, offset, rows)
    else if d.MySQL? then Take(Skip(rows, offset), TWO_64 - 1)
    else if limit == 0 then rows
    else []
  }

  /** The condition is exact. */
  lemma {:induction false} FitsIsExact<T>(d: Dialect, limit: int, offset: int, rows: seq<T>)
    requires Sized(limit, offset)
    ensures Returned(d, limit, offset, rows) == Window(limit, offset, rows) <==> WindowFits(d, limit, offset, |rows|)
  {
    var rest := Skip(rows, offset);
    assert |rest| == if |rows| <= offset then 0 else |rows| - offset;
    assert |Window(limit, offset, rows)| <= |rest|;
    if limit > 0 && rest != [] { assert |Take(rest, limit)| > 0; }
  }

  lemma {:induction false} Int64Id(n: int)
    requires -TWO_63 <= n < TWO_63
    ensures Int64(n) == n
  {
  }

  /** A sum of two int64 numbers from zero up either fits or becomes negative. */
  lemma {:induction false} Wraps(n: int)
    requires 0 <= n < TWO_64
    ensures Int64(n) == if n < TWO_63 then n else n - TWO_64
  {
  }

  lemma {:induction false} BehindTheRows<T>(rows: seq<T>, offset: int, limit: int)
    requires offset >= 0
    ensures |rows| <= offset ==> Skip(rows, offset) == [] && Take(Skip(rows, offset), limit) == []
    ensures Skip<T>([], offset) == []
  {
  }

  predicate Binds(t: Token, n: int) { Bound(t) && Number(t) == n }

  lemma {:induction false} RownumTexts(body: Out, limit: int, offset: int)
    requires Sized(limit, offset) && !(limit == 0 && offset == 0)
    ensures var ts := RownumWrap(body, limit, offset).sql;
      && |ts| == (if limit == 0 || offset == 0 then 4 else 6) && ts[1] == Inner(body.sql)
      && (if limit == 0 then
            OpensNumbered(ts[0]) && !OpensPlain(ts[0]) && SkipsUnlimited(ts[2]) && Binds(ts[3], offset)
          else if offset == 0 then OpensPlain(ts[0]) && LimitsPlain(ts[2]) && Binds(ts[3], limit)
          else OpensNumbered(ts[0]) && LimitsNumbered(ts[2]) && Binds(ts[3], Int64(limit + offset)) && SkipsLimited(ts[4])
               && Binds(ts[5], offset))
  {
    assert |"SELECT * FROM (SELECT"| != |"SELECT * FROM ("|;
  }

  lemma {:induction false} RownumWindow<T>(body: Out, limit: int, offset: int, rows: seq<T>)
    requires Sized(limit, offset) && !(limit == 0 && offset == 0)
    ensures RownumRows(RownumWrap(body, limit, offset).sql, rows) == Some(Returned(Oracle(true), limit, offset, rows))
  {
    hide RownumWrap, RownumRows, Between, RownumAtMost, Numbers, Plain, Skip, Take, OpensPlain, OpensNumbered, LimitsPlain,
      LimitsNumbered, SkipsUnlimited, SkipsLimited, Int64;
    RownumTexts(body, limit, offset);
    RownumRead(RownumWrap(body, limit, offset).sql, rows);
    if limit == 0 {
      BetweenFrom(rows, 1, offset + 1);
    } else if offset == 0 {
      RownumTakes(rows, limit, 1);
      PlainNumbers(Take(rows, limit), 1);
      SkipNothing(rows, 0);
    } else {
      var bound := Int64(limit + offset);
      Wraps(limit + offset);
      RownumTakes(rows, bound, 1);
      BetweenFrom(Take(rows, bound), 1, offset + 1);
      if bound < 0 {
        TakeNothing(rows, bound);
        BehindTheRows(rows, offset, limit);
      } else {
        SkipTake(rows, limit, offset);
      }
    }
  }

  lemma {:induction false} RownumRead<T>(ts: seq<Token>, rows: seq<T>)
    requires (|ts| == 4 || |ts| == 6) && ts[1].Inner? && Bound(ts[3])
    ensures |ts| == 4 && OpensPlain(ts[0]) && LimitsPlain(ts[2]) ==>
      RownumRows(ts, rows) == Some(Plain(RownumAtMost(rows, Number(ts[3]), 1)))
    ensures |ts| == 4 && OpensNumbered(ts[0]) && !OpensPlain(ts[0]) && SkipsUnlimited(ts[2]) ==>
      RownumRows(ts, rows) == Some(Plain(Between(Numbers(rows, 1), Number(ts[3]) + 1, None)))
    ensures |ts| == 6 && OpensNumbered(ts[0]) && LimitsNumbered(ts[2]) && SkipsLimited(ts[4]) && Bound(ts[5]) ==>
      RownumRows(ts, rows) == Some(Plain(Between(RownumAtMost(rows, Number(ts[3]), 1), Number(ts[5]) + 1, None)))
  {
    hide OpensPlain, OpensNumbered, LimitsPlain, LimitsNumbered, SkipsUnlimited, SkipsLimited, Plain, Between, Numbers,
      RownumAtMost;
  }

  lemma {:induction false} RowNumberTexts(body: Out, limit: int, offset: int)
    requires Sized(limit, offset) && offset > 0
    ensures var ts := RowNumberWrap(body, limit, offset).sql;
      && |ts| == (if limit == 0 then 8 else 10)
      && OpensPlain(ts[0]) && ts[1] == Inner(body.sql) && Filters(ts[2..6]) && Binds(ts[7], Int64(offset + 1))
      && (if limit == 0 then AtLeast(ts[6])
          else InBetween(ts[6]) && ts[8] == Sym("AND") && Binds(ts[9], Int64(limit + offset)))
  {
    var ts := RowNumberWrap(body, limit, offset).sql;
    assert ts[2..6] == [Sym(") AS"), Ident("results_wrapper"), Sym("WHERE"), Ident("row_num")];
  }

  lemma {:induction false} RowNumberWindow<T>(body: Out, limit: int, offset: int, rows: seq<T>)
    requires Sized(limit, offset) && offset > 0
    ensures RowNumberRows(RowNumberWrap(body, limit, offset).sql, rows) == Some(Returned(SqlServer(true), limit, offset, rows))
  {
    hide RowNumberWrap, RowNumberRows, OpensPlain, Filters, AtLeast, InBetween, Between, Numbers, Plain, Skip, Take, Int64;
    RowNumberTexts(body, limit, offset);
    RowNumberRead(RowNumberWrap(body, limit, offset).sql, rows);
    var low, high := Int64(offset + 1), Int64(limit + offset);
    Wraps(offset + 1);
    Wraps(limit + offset);
    if limit == 0 {
      BetweenFrom(rows, 1, low);
      if low < 0 {
        SkipNothing(rows, low - 1);
        EmptySkips(rows, offset);
      }
    } else {
      BetweenUpTo(rows, 1, low, high);
      if high < 0 {
        TakeNothing(Skip(rows, low - 1), high - (if low > 1 then low else 1) + 1);
        BehindTheRows(rows, offset, limit);
      }
    }
  }

  lemma {:induction false} EmptySkips<T>(rows: seq<T>, offset: int)
    ensures |rows| == 0 ==> Skip(rows, offset) == rows
  {
  }

  lemma {:induction false} RowNumberRead<T>(ts: seq<Token>, rows: seq<T>)
    requires (|ts| == 8 || |ts| == 10) && OpensPlain(ts[0]) && ts[1].Inner? && Filters(ts[2..6]) && Bound(ts[7])
    requires if |ts| == 8 then AtLeast(ts[6]) else InBetween(ts[6]) && ts[8] == Sym("AND") && Bound(ts[9])
    ensures RowNumberRows(ts, rows) ==
      Some(Plain(Between(Numbers(rows, 1), Number(ts[7]), if |ts| == 8 then None else Some(Number(ts[9])))))
  {
    hide OpensPlain, Filters, AtLeast, InBetween, Between, Numbers, Plain;
  }

  /** The fixed texts are told apart. */
  lemma {:induction false} TextsDiffer(t: Token)
    ensures IsOffset(t) ==> !IsLimit(t) && !IsFiller(t)
    ensures IsCeiling(t) ==> !IsLimit(t) && !IsOffset(t)
    ensures IsUnlimited(t) ==> !IsLimit(t) && !IsOffset(t) && !IsCeiling(t)
    ensures IsFiller(t) ==> !IsLimit(t)
  {
    assert |"LIMIT"| == 5 && |"OFFSET"| == 6 && |"LIMIT 18446744073709551615 OFFSET"| == 33 && |"LIMIT -1 OFFSET"| == 15;
    assert |"ORDER BY (SELECT 0)"| == 19 && |"ORDER BY (SELECT 0 FROM DUAL)"| == 29;
  }

  /** What LIMIT and OFFSET print. */
  lemma {:induction false} StandardTexts(limit: int, offset: int)
    ensures var ts := StandardLimit(limit, offset).sql;
      if limit == 0 && offset == 0 then ts == []
      else if offset == 0 then |ts| == 2 && IsLimit(ts[0]) && Binds(ts[1], limit)
      else if limit == 0 then |ts| == 2 && IsOffset(ts[0]) && Binds(ts[1], offset)
      else |ts| == 4 && IsLimit(ts[0]) && Binds(ts[1], limit) && IsOffset(ts[2]) && Binds(ts[3], offset)
  {
  }

  lemma {:induction false} StandardWindow<T>(limit: int, offset: int, rows: seq<T>)
    requires Sized(limit, offset)
    ensures TailRows(StandardLimit(limit, offset).sql, rows) == Some(Window(limit, offset, rows))
  {
    var ts := StandardLimit(limit, offset).sql;
    StandardTexts(limit, offset);
    if ts != [] { TextsDiffer(ts[0]); }
    hide StandardLimit, IsLimit, IsOffset, IsCeiling, IsUnlimited, IsFiller, FetchRows;
  }

  /** What OFFSET-FETCH prints. */
  lemma {:induction false} FetchTexts(ordered: bool, filler: string, limit: int, offset: int, bare: bool)
    ensures var ts := FetchForm(ordered, filler, limit, offset, bare).sql;
      var body := FetchBody(ts, ordered);
      && (!ordered ==> ts != [] && ts[0] == Sym(filler))
      && |body| == (if bare then 3 else 6) && IsOffset(body[0]) && Binds(body[1], offset) && IsRows(body[2])
      && (!bare ==> IsFetch(body[3]) && Binds(body[4], limit) && IsOnly(body[5]))
  {
  }

  /** The body of an OFFSET-FETCH form, behind the filler where there is no order. */
  function FetchBody(ts: seq<Token>, ordered: bool): seq<Token> { if ordered || ts == [] then ts else ts[1..] }

  lemma {:induction false} FetchRead<T>(ts: seq<Token>, ordered: bool, filler: string, bare: bool, rows: seq<T>)
    requires IsFiller(Sym(filler)) && (!ordered ==> ts != [] && ts[0] == Sym(filler))
    requires var body := FetchBody(ts, ordered);
      && |body| == (if bare then 3 else 6) && IsOffset(body[0]) && Bound(body[1]) && IsRows(body[2])
      && (!bare ==> IsFetch(body[3]) && Bound(body[4]) && IsOnly(body[5]))
    ensures var body := FetchBody(ts, ordered); var rest := Skip(rows, Number(body[1]));
      TailRows(ts, rows) == Some(if bare then rest else Take(rest, Number(body[4])))
  {
    TextsDiffer(ts[0]);
    TextsDiffer(Sym(filler));
    assert |ts| == (if bare then 3 else 6) + (if ordered then 0 else 1);
    hide IsLimit, IsOffset, IsCeiling, IsUnlimited, IsFiller, IsRows, IsFetch, IsOnly, Skip, Take, Bound, Number;
  }

  lemma {:induction false} FetchWindow<T>(ordered: bool, filler: string, limit: int, offset: int, rows: seq<T>)
    requires Sized(limit, offset) && IsFiller(Sym(filler))
    ensures TailRows(FetchForm(ordered, filler, limit, offset, limit == 0).sql, rows) == Some(Window(limit, offset, rows))
  {
    hide FetchForm, TailRows, IsLimit, IsOffset, IsCeiling, IsUnlimited, IsFiller, IsRows, IsFetch, IsOnly;
    var ts := FetchForm(ordered, filler, limit, offset, limit == 0).sql;
    FetchTexts(ordered, filler, limit, offset, limit == 0);
    FetchRead(ts, ordered, filler, limit == 0, rows);
  }

  /** MySQL's ceiling of 2^64 - 1 rows, and SQLite's negative limit. */
  lemma {:induction false} OffsetOnly<T>(ceiling: bool, offset: int, rows: seq<T>)
    requires 0 < offset
    ensures var text := if ceiling then "LIMIT 18446744073709551615 OFFSET" else "LIMIT -1 OFFSET";
      TailRows(Cat(Word(text), Bind(offset)).sql, rows) ==
        Some(if ceiling then Take(Skip(rows, offset), TWO_64 - 1) else Skip(rows, offset))
  {
    var t := Sym(if ceiling then "LIMIT 18446744073709551615 OFFSET" else "LIMIT -1 OFFSET");
    TextsDiffer(t);
    assert IsCeiling(t) || IsUnlimited(t);
    var ts := Cat(Word(t.text), Bind(offset)).sql;
    assert ts == [t, Hole(Filled(Num(offset)))];
    hide IsLimit, IsOffset, IsCeiling, IsUnlimited, IsFiller, FetchRows;
  }

  lemma {:induction false} TopWindow<T>(c: Compiler, limit: int, offset: int, rows: seq<T>)
    requires Sized(limit, offset)
    ensures TopRows(TopSection(c, limit, offset).sql, rows) ==
      Some(if c.dialect.SqlServer? && offset == 0 then Window(limit, 0, rows) else rows)
  {
    var ts := TopSection(c, limit, offset).sql;
    if c.dialect.SqlServer? && limit > 0 && offset == 0 {
      assert ts == [Sym("TOP ("), Hole(Filled(Num(limit))), Sym(")")];
    }
  }

  /** All pagination forms, read back: the same window of the rows, exactly where
      no bound wraps around. */
  lemma {:induction false} OneWindow<T>(c: Compiler, ordered: bool, limit: int, offset: int, body: Out, rows: seq<T>)
    requires Sized(limit, offset)
    ensures Paged(c, ordered, limit, offset, body, rows) == Some(Returned(c.dialect, limit, offset, rows))
    ensures Paged(c, ordered, limit, offset, body, rows) == Some(Window(limit, offset, rows))
      <==> WindowFits(c.dialect, limit, offset, |rows|)
  {
    TopWindow(c, limit, offset, rows);
    FitsIsExact(c.dialect, limit, offset, rows);
    hide TopSection, TopRows, TailRows, RownumRows, RowNumberRows, RownumWrap, RowNumberWrap, FetchForm, StandardLimit, Take, Skip;
    assert IsFiller(Sym("ORDER BY (SELECT 0)")) && IsFiller(Sym("ORDER BY (SELECT 0 FROM DUAL)"));
    hide IsFiller;
    match c.dialect
    case Oracle(legacy) =>
      if limit == 0 && offset == 0 { NothingPaged(rows); }
      else if legacy { RownumWindow(body, limit, offset, rows); }
      else { FetchWindow(ordered, "ORDER BY (SELECT 0 FROM DUAL)", limit, offset, rows); }
    case SqlServer(legacy) =>
      if offset == 0 { NothingPaged(Window(limit, 0, rows)); }
      else if legacy { RowNumberWindow(body, limit, offset, rows); }
      else { FetchWindow(ordered, "ORDER BY (SELECT 0)", limit, offset, rows); }
    case MySQL =>
      if limit == 0 && offset > 0 { OffsetOnly(true, offset, rows); CeilingReaches(rows, offset); }
      else { StandardWindow(limit, offset, rows); }
    case SQLite =>
      if limit == 0 && offset > 0 { OffsetOnly(false, offset, rows); } else { StandardWindow(limit, offset, rows); }
    case _ => StandardWindow(limit, offset, rows);
  }

  lemma {:induction false} CeilingReaches<T>(rows: seq<T>, offset: int)
    requires 0 < offset
    ensures |rows| - offset < TWO_64 ==> Take(Skip(rows, offset), TWO_64 - 1) == Skip(rows, offset)
  {
  }

  lemma {:induction false} NothingPaged<T>(rows: seq<T>)
    ensures TailRows([], rows) == Some(rows) && Window(0, 0, rows) == rows
  {
  }

  // ----- witnesses -------------------------------------------------------------------------------------------

  /** Rows without an upper bound, from the second on: with the largest limit the
      nested ROWNUM form and the ROW_NUMBER form lose them all. */
  lemma {:induction false} OverflowEmptiesThePage<T>(body: Out, a: T, b: T)
    ensures var most := TWO_63 - 1;
      && Window(most, 1, [a, b]) == [b]
      && RownumRows(RownumWrap(body, most, 1).sql, [a, b]) == Some([])
      && RowNumberRows(RowNumberWrap(body, most, 1).sql, [a, b]) == Some([])
  {
    hide RownumRows, RowNumberRows, RownumWrap, RowNumberWrap;
    RownumWindow(body, TWO_63 - 1, 1, [a, b]);
    RowNumberWindow(body, TWO_63 - 1, 1, [a, b]);
  }

  /** The largest offset, without a limit, skips nothing in the ROW_NUMBER form. */
  lemma {:induction false} OverflowSkipsNothing<T>(body: Out, a: T)
    ensures var most := TWO_63 - 1;
      Window(0, most, [a]) == [] && RowNumberRows(RowNumberWrap(body, 0, most).sql, [a]) == Some([a])
  {
    hide RowNumberRows, RowNumberWrap;
    RowNumberWindow(body, 0, TWO_63 - 1, [a]);
  }

  /** An offset below zero, such as the wrapped offset of a far page: where the
      database reads it as zero, the rows are the first page, and SQL Server is not
      even told it; the nested ROWNUM form adds it to the limit and returns fewer
      rows, or none. */
  lemma {:induction false} NegativeOffset<T>(c: Compiler, ordered: bool, limit: int, offset: int, body: Out, rows: seq<T>)
    requires 0 < limit < TWO_63 && -TWO_63 <= offset < 0
    ensures Paged(c, ordered, limit, offset, body, rows) ==
      Some(Take(rows, if c.dialect == Oracle(true) then limit + offset else limit))
    ensures c.dialect.SqlServer? ==>
      TopSection(c, limit, offset) == TopSection(c, limit, 0)
      && LimitSection(c, ordered, limit, offset) == LimitSection(c, ordered, limit, 0) == Nothing
  {
    SkipNothing(rows, offset);
    hide TailRows, RownumRows, RownumWrap, FetchForm, StandardLimit, Take, IsFiller;
    match c.dialect
    case Oracle(legacy) =>
      if legacy { NegativeRownum(body, limit, offset, rows); } else { NegativeFetch(ordered, limit, offset, rows); }
    case SqlServer(_) =>
      assert TopSection(c, limit, offset).sql == [Sym("TOP ("), Hole(Filled(Num(limit))), Sym(")")];
      NothingPaged(Take(rows, limit));
    case _ => NegativeStandard(limit, offset, rows);
  }

  lemma {:induction false} NegativeStandard<T>(limit: int, offset: int, rows: seq<T>)
    requires 0 < limit && offset < 0
    ensures TailRows(StandardLimit(limit, offset).sql, rows) == Some(Take(rows, limit))
  {
    var ts := StandardLimit(limit, offset).sql;
    StandardTexts(limit, offset);
    TextsDiffer(ts[0]);
    SkipNothing(rows, offset);
    hide StandardLimit, IsLimit, IsOffset, IsCeiling, IsUnlimited, IsFiller, FetchRows, Skip;
  }

  lemma {:induction false} NegativeFetch<T>(ordered: bool, limit: int, offset: int, rows: seq<T>)
    requires 0 < limit && offset < 0
    ensures TailRows(FetchForm(ordered, "ORDER BY (SELECT 0 FROM DUAL)", limit, offset, false).sql, rows) == Some(Take(rows, limit))
  {
    var filler := "ORDER BY (SELECT 0 FROM DUAL)";
    var ts := FetchForm(ordered, filler, limit, offset, false).sql;
    assert IsFiller(Sym(filler));
    hide FetchForm, TailRows, IsFiller, IsLimit, IsOffset, IsRows, IsFetch, IsOnly, Skip;
    FetchTexts(ordered, filler, limit, offset, false);
    FetchRead(ts, ordered, filler, false, rows);
    SkipNothing(rows, offset);
  }

  lemma {:induction false} NegativeRownum<T>(body: Out, limit: int, offset: int, rows: seq<T>)
    requires 0 < limit < TWO_63 && -TWO_63 <= offset < 0
    ensures RownumRows(RownumWrap(body, limit, offset).sql, rows) == Some(Take(rows, limit + offset))
  {
    hide RownumRows, Between, RownumAtMost, Numbers, Plain, Skip, Take, OpensPlain, LimitsPlain, SkipsUnlimited;
    var ts := RownumWrap(body, limit, offset).sql;
    Int64Id(limit + offset);
    assert OpensNumbered(ts[0]) && LimitsNumbered(ts[2]) && SkipsLimited(ts[4]);
    assert |ts| == 6 && ts[1] == Inner(body.sql) && Binds(ts[3], limit + offset) && Binds(ts[5], offset);
    RownumRead(ts, rows);
    RownumTakes(rows, limit + offset, 1);
    BetweenFrom(Take(rows, limit + offset), 1, offset + 1);
    SkipNothing(Take(rows, limit + offset), offset);
  }

  /** Rows as SELECT DISTINCT returns them. */
  function Deduped<T(==)>(rows: seq<T>): seq<T> {
    if rows == [] then [] else (if rows[0] in rows[1..] then [] else [rows[0]]) + Deduped(rows[1..])
  }

  /** Numbering comes before DISTINCT: with a row number in the projection no two
      rows are equal, so the legacy ROW_NUMBER page of a distinct query is a page of
      the rows before deduplication. */
  lemma {:induction false} NumbersDefeatDistinct<T>(rows: seq<T>, next: int)
    ensures Deduped(Numbers(rows, next)) == Numbers(rows, next)
    ensures forall n <- Numbers(rows, next) :: next <= n.number
  {
    if rows != [] {
      NumbersDefeatDistinct(rows[1..], next + 1);
      var numbers := Numbers(rows, next);
      assert numbers[1..] == Numbers(rows[1..], next + 1);
      assert numbers[0] !in numbers[1..];
    }
  }
}
