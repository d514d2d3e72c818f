/** The paging loop over a fixed row sequence: Paginate, HasMore and Chunk.  The
    database is the sequence; counting it gives its length and fetching a page gives
    the window that module Paging proves every dialect prints. */
module Chunks {
  import opened Dialects
  import P = Paging

  // ----- pages --------------------------------------------------------------------------------

  /** Go divides towards zero. */
  function Quotient(a: int, b: int): int
    requires b > 0
  {
    if a >= 0 then a / b else -((-a) / b)
  }

  /** Whether pages follow: the total divided by the page size, rounded up, against
      the page number. */
  predicate HasMore(page: int, perPage: int, total: int) {
    perPage >= 1 &&
    var whole := Quotient(total, perPage);
    page < if total != whole * perPage then whole + 1 else whole
  }

  lemma {:induction false} MulMonotone(a: int, b: int, p: nat)
    ensures a <= b ==> a * p <= b * p
  {
    if a <= b { assert (b - a) * p >= 0; }
    assert b * p == a * p + (b - a) * p;
  }

  lemma {:induction false} DivUnique(a: int, p: int, q: int, r: int)
    requires p > 0 && a == q * p + r && 0 <= r < p
    ensures a / p == q
  {
    var d, m := a / p, a % p;
    assert a == d * p + m;
    assert (d + 1) * p == d * p + p && (q + 1) * p == q * p + p;
    MulMonotone(d + 1, q, p);
    MulMonotone(q + 1, d, p);
  }

  /** The divided form decides the product it avoids. */
  lemma {:induction false} HasMoreIsProduct(page: int, perPage: int, total: int)
    requires perPage >= 1 && total >= 0
    ensures HasMore(page, perPage, total) <==> page * perPage < total
  {
    var whole, rest := total / perPage, total % perPage;
    assert total == whole * perPage + rest;
    if page < whole {
      MulMonotone(page + 1, whole, perPage);
      assert (page + 1) * perPage == page * perPage + perPage;
    } else if page == whole {
    } else {
      MulMonotone(whole + 1, page, perPage);
      assert (whole + 1) * perPage == whole * perPage + perPage;
    }
  }

  /** The offset of a page, in int64 arithmetic. */
  function PageOffset(page: int, perPage: int): int { Int64((page - 1) * perPage) }

  datatype Page<T> = Page(number: int, perPage: int, total: int, list: seq<T>)
  datatype Result<T> = Ok(page: Page<T>) | InvalidPagination

  /** Counts first; an empty result skips the list query. */
  method Paginate<T>(rows: seq<T>, page: int, perPage: int) returns (r: Result<T>)
    ensures r == PageOf(rows, page, perPage)
  {
    if page < 1 || perPage < 1 { return InvalidPagination; }
    var total := |rows|;
    var result := Page(page, perPage, total, []);
    if total == 0 { return Ok(result); }
    result := result.(list := P.Window(perPage, PageOffset(page, perPage), rows));
    return Ok(result);
  }

  function PageOf<T>(rows: seq<T>, page: int, perPage: int): Result<T> {
    if page < 1 || perPage < 1 then InvalidPagination
    else
      Ok(Page(page, perPage, |rows|,
              if rows == [] then [] else P.Window(perPage, PageOffset(page, perPage), rows)))
  }

  /** The rows of a page, without arithmetic limits. */
  function Expected<T>(rows: seq<T>, page: int, perPage: int): seq<T>
    requires page >= 1 && perPage >= 1
  {
    P.Take(P.Skip(rows, (page - 1) * perPage), perPage)
  }

  /** The list is the page asked for exactly when the offset computed in int64 did
      not wrap around, or wrapped beyond the rows, or there are no rows.  An offset
      that wrapped around to a negative number skips nothing: see Paging.NegativeOffset
      for what each dialect prints then. */
  lemma {:induction false} PaginateExact<T>(rows: seq<T>, page: int, perPage: int)
    requires 1 <= page < TWO_63 && 1 <= perPage < TWO_63 && |rows| < TWO_63
    ensures var list := PageOf(rows, page, perPage).page.list; var offset := PageOffset(page, perPage);
      list == Expected(rows, page, perPage) <==>
        (offset == (page - 1) * perPage || offset >= |rows| || rows == [])
    ensures PageOffset(page, perPage) < 0 ==>
      PageOf(rows, page, perPage).page.list == PageOf(rows, 1, perPage).page.list
  {
    var offset := PageOffset(page, perPage);
    var exact := (page - 1) * perPage;
    assert exact >= 0;
    assert PageOffset(1, perPage) == 0;
    if offset != exact {
      Wrapped(exact);
      assert P.Skip(rows, exact) == [];
      assert Expected(rows, page, perPage) == [];
      if 0 <= offset < |rows| {
        assert |P.Skip(rows, offset)| == |rows| - offset > 0;
      }
    }
  }

  lemma {:induction false} Wrapped(n: int)
    requires n >= 0 && Int64(n) != n
    ensures n >= TWO_63
  {
  }

  /** A page far out of range can come back as the first page: the offset of page
      2^62 + 1 of four rows each wraps around to zero. */
  lemma {:induction false} FarPageIsFirst<T>(rows: seq<T>)
    requires rows != []
    ensures var page := 0x4000_0000_0000_0001;
      PageOf(rows, page, 4).page.list == PageOf(rows, 1, 4).page.list != [] && Expected(rows, page, 4) == P.Take(P.Skip(rows, TWO_64), 4)
  {
    assert PageOffset(0x4000_0000_0000_0001, 4) == 0 == PageOffset(1, 4);
  }

  /** With pages of two rows the same page has a negative offset. */
  lemma {:induction false} FarOffsetIsNegative()
    ensures PageOffset(0x4000_0000_0000_0001, 2) == -TWO_63
  {
  }

  // ----- chunks ----------------------------------------------------------------------------------

  /** The rows cut into pieces of a size; no rows give one empty piece. */
  function Pieces<T>(rows: seq<T>, size: nat): (pieces: seq<seq<T>>)
    requires size >= 1
    ensures pieces != []
    decreases |rows|
  {
    if |rows| <= size then [rows] else [rows[..size]] + Pieces(rows[size..], size)
  }

  function Concat<T>(pieces: seq<seq<T>>): seq<T> {
    if pieces == [] then [] else pieces[0] + Concat(pieces[1..])
  }

  function Ceiling(n: nat, size: nat): nat
    requires size >= 1
  {
    (n + size - 1) / size
  }

  lemma {:induction false} CeilingStep(n: nat, size: nat)
    requires size >= 1 && n > size
    ensures Ceiling(n, size) == 1 + Ceiling(n - size, size)
  {
    assert (n + size - 1) == (n - size + size - 1) + size;
    DivStep(n - size + size - 1, size);
  }

  lemma {:induction false} DivStep(a: nat, size: nat)
    requires size >= 1
    ensures (a + size) / size == a / size + 1
  {
    var d, m := a / size, a % size;
    assert a == d * size + m;
    assert (d + 1) * size == d * size + size;
    DivUnique(a + size, size, d + 1, m);
  }

  lemma {:induction false} CeilingSmall(n: nat, size: nat)
    requires size >= 1 && n <= size
    ensures Ceiling(n, size) == if n == 0 then 0 else 1
  {
    if n > 0 {
      assert n + size - 1 == (n - 1) + size;
      DivStep(n - 1, size);
      assert (n - 1) / size == 0;
    } else {
      assert (size - 1) / size == 0;
    }
  }

  /** The pieces cover the rows exactly once, in order; all but the last are full. */
  lemma {:induction false} PiecesCover<T>(rows: seq<T>, size: nat)
    requires size >= 1
    ensures var pieces := Pieces(rows, size);
      && Concat(pieces) == rows
      && |pieces| == (if rows == [] then 1 else Ceiling(|rows|, size))
      && (forall i :: 0 <= i < |pieces| - 1 ==> |pieces[i]| == size)
      && |pieces[|pieces| - 1]| <= size
    decreases |rows|
  {
    if |rows| <= size {
      CeilingSmall(|rows|, size);
      assert [rows][1..] == [];
    } else {
      PiecesCover(rows[size..], size);
      CeilingStep(|rows|, size);
      var rest := Pieces(rows[size..], size);
      assert ([rows[..size]] + rest)[1..] == rest;
      assert rows == rows[..size] + rows[size..];
    }
  }

  /** How many pieces a consumer takes that decides after each one. */
  function Taken<T>(pieces: seq<seq<T>>, wants: seq<seq<T>> -> bool, done: nat): (k: nat)
    requires done < |pieces|
    ensures done < k <= |pieces|
    decreases |pieces| - done
  {
    if done + 1 == |pieces| || !wants(pieces[..done + 1]) then done + 1 else Taken(pieces, wants, done + 1)
  }

  /** The i-th page is the i-th piece, and its offset needs no wrap-around. */
  lemma {:induction false} PageIsPiece<T>(rows: seq<T>, size: nat, i: nat)
    requires size >= 1 && |rows| < TWO_63 && i < |Pieces(rows, size)|
    ensures i * size < TWO_63 && PageOffset(i + 1, size) == i * size
    ensures PageOf(rows, i + 1, size) == Ok(Page(i + 1, size, |rows|, Pieces(rows, size)[i]))
    ensures HasMore(i + 1, size, |rows|) <==> i + 1 < |Pieces(rows, size)|
  {
    PieceAt(rows, size, i);
    HasMoreIsProduct(i + 1, size, |rows|);
    assert (i + 1) * size == i * size + size;
    if rows == [] { assert i == 0; }
  }

  lemma {:induction false} PieceAt<T>(rows: seq<T>, size: nat, i: nat)
    requires size >= 1 && i < |Pieces(rows, size)|
    ensures i * size <= |rows| && (rows != [] ==> i * size < |rows|)
    ensures Pieces(rows, size)[i] == P.Take(P.Skip(rows, i * size), size)
    ensures i + 1 < |Pieces(rows, size)| <==> i * size + size < |rows|
  {
    PieceFrom(rows, size, i);
    assert Start(i, size) == i * size;
  }

  /** Where a piece starts. */
  function Start(i: nat, size: nat): nat { i * size }

  lemma {:induction false} StartStep(i: nat, size: nat)
    ensures Start(0, size) == 0 && Start(i + 1, size) == Start(i, size) + size
  {
  }

  lemma {:induction false} PieceFrom<T>(rows: seq<T>, size: nat, i: nat)
    requires size >= 1 && i < |Pieces(rows, size)|
    ensures Start(i, size) <= |rows| && (rows != [] ==> Start(i, size) < |rows|)
    ensures Pieces(rows, size)[i] == P.Take(P.Skip(rows, Start(i, size)), size)
    ensures i + 1 < |Pieces(rows, size)| <==> Start(i, size) + size < |rows|
    decreases i
  {
    hide Start;
    if i > 0 {
      StartStep(i - 1, size);
      PieceFrom(rows[size..], size, i - 1);
      PieceLater(rows, size, i, Start(i - 1, size));
    } else {
      StartStep(0, size);
    }
  }

  /** A later piece is a piece of what the first one leaves. */
  lemma {:induction false} PieceLater<T>(rows: seq<T>, size: nat, i: nat, before: nat)
    requires size >= 1 && 0 < i < |Pieces(rows, size)|
    ensures |rows| > size && i - 1 < |Pieces(rows[size..], size)|
    ensures Pieces(rows, size)[i] == Pieces(rows[size..], size)[i - 1]
    ensures |Pieces(rows, size)| == |Pieces(rows[size..], size)| + 1
    ensures P.Skip(rows[size..], before) == P.Skip(rows, before + size)
  {
    SkipTwice(rows, size, before);
  }

  lemma {:induction false} SkipTwice<T>(rows: seq<T>, a: nat, b: nat)
    requires a < |rows|
    ensures P.Skip(rows[a..], b) == P.Skip(rows, a + b)
  {
  }

  lemma {:induction false} TurnIsPiece<T>(rows: seq<T>, size: nat, i: nat)
    requires size >= 1 && |rows| < TWO_63 && i < |Pieces(rows, size)|
    ensures PageOf(rows, i + 1, size) == Ok(Page(i + 1, size, |rows|, Pieces(rows, size)[i]))
    ensures HasMore(i + 1, size, |rows|) <==> i + 1 < |Pieces(rows, size)|
  {
    PageIsPiece(rows, size, i);
  }

  lemma {:induction false} NoSizeNoPage<T>(rows: seq<T>, size: int)
    requires size < 1
    ensures PageOf(rows, 1, size).InvalidPagination?
  {
  }

  lemma {:induction false} TakenStep<T>(pieces: seq<seq<T>>, wants: seq<seq<T>> -> bool, done: nat)
    requires done < |pieces|
    ensures Taken(pieces, wants, done) ==
      if done + 1 == |pieces| || !wants(pieces[..done + 1]) then done + 1 else Taken(pieces, wants, done + 1)
  {
  }

  /** The chunk loop: one page at a time, recounting, until pages run out or the
      consumer stops.  By PageIsPiece no offset computed on the way wraps around. */
  method Chunk<T>(rows: seq<T>, size: int, wants: seq<seq<T>> -> bool) returns (chunks: seq<seq<T>>, failed: bool)
    requires |rows| < TWO_63 && size < TWO_63
    ensures failed <==> size < 1
    ensures failed ==> chunks == []
    ensures !failed ==> chunks == Pieces(rows, size)[..Taken(Pieces(rows, size), wants, 0)]
  {
    hide Pieces, HasMore, PageOffset, PageOf, Concat, Ceiling, Taken;
    chunks, failed := [], false;
    if size < 1 {
      var rejected := Paginate(rows, 1, size);
      NoSizeNoPage(rows, size);
      assert rejected.InvalidPagination?;
      failed := true;
      return;
    }
    ghost var pieces := Pieces(rows, size);
    PiecesCover(rows, size);
    var page := 1;
    while true
      invariant 1 <= page <= |pieces|
      invariant chunks == pieces[..page - 1]
      invariant Taken(pieces, wants, 0) == Taken(pieces, wants, page - 1)
      decreases |pieces| - page
    {
      TurnIsPiece(rows, size, page - 1);
      TakenStep(pieces, wants, page - 1);
      var result := Paginate(rows, page, size);
      assert result == Ok(Page(page, size, |rows|, pieces[page - 1]));
      chunks := chunks + [result.page.list];
      assert chunks == pieces[..page];
      if !wants(chunks) { return; }
      if !HasMore(page, size, result.page.total) { return; }
      page := page + 1;
    }
  }

  /** A consumer that never stops gets every row exactly once, in order. */
  lemma {:induction false} PatientConsumer<T>(pieces: seq<seq<T>>, wants: seq<seq<T>> -> bool, done: nat)
    requires done < |pieces| && forall taken :: wants(taken)
    ensures Taken(pieces, wants, done) == |pieces|
    decreases |pieces| - done
  {
    if done + 1 < |pieces| { PatientConsumer(pieces, wants, done + 1); }
  }

  /** Whatever was taken is a prefix of the rows. */
  lemma {:induction false} TakenIsPrefix<T>(rows: seq<T>, size: nat, k: nat)
    requires size >= 1 && k <= |Pieces(rows, size)|
    ensures Concat(Pieces(rows, size)[..k]) <= rows
    decreases k
  {
    var pieces := Pieces(rows, size);
    if k > 0 {
      if |rows| <= size {
        assert pieces[..k] == [rows] && [rows][1..] == [];
      } else {
        TakenIsPrefix(rows[size..], size, k - 1);
        var rest := Pieces(rows[size..], size);
        assert pieces[..k][1..] == rest[..k - 1] && pieces[..k][0] == rows[..size];
        assert rows == rows[..size] + rows[size..];
      }
    }
  }
}
