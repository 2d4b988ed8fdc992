/**
  Reading an Upbit market's resting orders page by page (internal/upbit/trading.go). Reconciliation takes an order that
  is not in this listing to have left the book, so a listing must be whole or be refused.
*/
module Paging {
  import opened Wrappers

  const MAX_PAGES := 100
  const PAGE := 100

  /** One resting order as a page shows it. */
  datatype Row = Row(broker: nat, filled: int)

  datatype PagingError = Unread | Shifted | TooLarge

  ghost predicate Distinct(rows: seq<Row>) {
    forall i, j | 0 <= i < j < |rows| :: rows[i].broker != rows[j].broker
  }

  /** All rows of the first n pages, in the order they were read. */
  ghost function Read(pages: seq<Option<seq<Row>>>, n: nat): seq<Row>
    requires n <= |pages| && forall i | 0 <= i < n :: pages[i].Some?
  {
    if n == 0 then [] else Read(pages, n - 1) + pages[n - 1].value
  }

  /** The first n pages were read, were all full but the last, and the last was not. */
  ghost predicate EndsAt(pages: seq<Option<seq<Row>>>, n: nat) {
    && 0 < n <= |pages| && n <= MAX_PAGES
    && (forall i | 0 <= i < n :: pages[i].Some?)
    && (forall i | 0 <= i < n - 1 :: PAGE <= |pages[i].value|)
    && |pages[n - 1].value| < PAGE
  }

  /** The first n pages were read, and all of them were full. */
  ghost predicate FullUpTo(pages: seq<Option<seq<Row>>>, n: nat) {
    n <= |pages| && forall i | 0 <= i < n :: pages[i].Some? && PAGE <= |pages[i].value|
  }

  /** Adds a page, unless it repeats an order that was already seen. */
  method AddPage(out: seq<Row>, seen: set<nat>, batch: seq<Row>) returns (all: seq<Row>, known: set<nat>, shifted: bool)
    requires Distinct(out) && seen == set r | r in out :: r.broker
    ensures shifted <==> !Distinct(out + batch)
    ensures !shifted ==> all == out + batch && Distinct(all) && known == set r | r in all :: r.broker
  {
    all, known, shifted := out, seen, false;
    for i := 0 to |batch|
      invariant all == out + batch[..i] && Distinct(all) && known == set r | r in all :: r.broker
    {
      var row := batch[i];
      if row.broker in known {
        var j :| 0 <= j < |all| && all[j].broker == row.broker;
        assert (out + batch)[j] == all[j] && (out + batch)[|out| + i] == row;
        return all, known, true;
      }
      assert out + batch[..i + 1] == all + [row];
      known := known + {row.broker};
      all := all + [row];
    }
    assert batch[..|batch|] == batch;
  }

  /**
    Returns a listing exactly when the pages end in time and repeat nothing, and then it is every row of them. A
    repeated order means that the book moved between two pages.
  */
  method OpenOrders(pages: seq<Option<seq<Row>>>) returns (listing: Result<seq<Row>, PagingError>)
    requires MAX_PAGES <= |pages|
    ensures listing.Ok? <==> exists n: nat :: EndsAt(pages, n) && Distinct(Read(pages, n))
    ensures listing.Ok? ==> exists n: nat :: EndsAt(pages, n) && listing.value == Read(pages, n)
    ensures listing == Err(Unread) ==> exists n: nat | n < MAX_PAGES :: FullUpTo(pages, n) && pages[n].None? && Distinct(Read(pages, n))
    ensures listing == Err(Shifted) ==> exists n: nat | n < MAX_PAGES ::
      FullUpTo(pages, n) && pages[n].Some? && Distinct(Read(pages, n)) && !Distinct(Read(pages, n + 1))
    ensures listing == Err(TooLarge) ==> FullUpTo(pages, MAX_PAGES) && Distinct(Read(pages, MAX_PAGES))
  {
    var out: seq<Row>, seen: set<nat> := [], {};
    var page := 0;
    while page < MAX_PAGES
      invariant page <= MAX_PAGES
      invariant forall i | 0 <= i < page :: pages[i].Some? && PAGE <= |pages[i].value|
      invariant out == Read(pages, page) && Distinct(out) && seen == set r | r in out :: r.broker
    {
      if pages[page].None? {
        assert FullUpTo(pages, page);
        return Err(Unread);
      }
      var all, known, shifted := AddPage(out, seen, pages[page].value);
      if shifted {
        RepeatsStay(pages, page + 1);
        assert FullUpTo(pages, page);
        return Err(Shifted);
      }
      out, seen, page := all, known, page + 1;
      if |pages[page - 1].value| < PAGE {
        assert EndsAt(pages, page);
        return Ok(out);
      }
    }
    listing := Err(TooLarge);
  }

  /** A repeat among the first pages stays one however many more are read. */
  lemma {:induction false} LaterPagesKeepRows(pages: seq<Option<seq<Row>>>, m: nat, n: nat)
    requires m <= n <= |pages| && forall i | 0 <= i < n :: pages[i].Some?
    ensures Read(pages, m) <= Read(pages, n)
  {
    if m < n {
      LaterPagesKeepRows(pages, m, n - 1);
    }
  }

  lemma RepeatsStay(pages: seq<Option<seq<Row>>>, m: nat)
    requires m <= |pages| && (forall i | 0 <= i < m :: pages[i].Some?) && !Distinct(Read(pages, m))
    ensures forall n | m <= n <= |pages| && (forall i | 0 <= i < n :: pages[i].Some?) :: !Distinct(Read(pages, n))
  {
    forall n | m <= n <= |pages| && (forall i | 0 <= i < n :: pages[i].Some?)
      ensures !Distinct(Read(pages, n))
    {
      LaterPagesKeepRows(pages, m, n);
      var i, j :| 0 <= i < j < |Read(pages, m)| && Read(pages, m)[i].broker == Read(pages, m)[j].broker;
      assert Read(pages, n)[i] == Read(pages, m)[i] && Read(pages, n)[j] == Read(pages, m)[j];
    }
  }

  // ---------- A book that holds still ----------

  function Min(a: nat, b: nat): nat {
    if a < b then a else b
  }

  /** Page i of a book, counted from zero. */
  function PageOf(book: seq<Row>, i: nat): seq<Row> {
    book[Min(i * PAGE, |book|)..Min((i + 1) * PAGE, |book|)]
  }

  /** The book does not change while it is read. */
  ghost predicate Stable(pages: seq<Option<seq<Row>>>, book: seq<Row>) {
    |pages| == MAX_PAGES && forall i | 0 <= i < |pages| :: pages[i] == Some(PageOf(book, i))
  }

  lemma {:induction false} StablePages(pages: seq<Option<seq<Row>>>, book: seq<Row>, n: nat)
    requires Stable(pages, book) && n <= |pages|
    ensures forall i | 0 <= i < n :: pages[i].Some?
    ensures Read(pages, n) == book[..Min(n * PAGE, |book|)]
  {
    if n > 0 {
      StablePages(pages, book, n - 1);
      assert pages[n - 1] == Some(PageOf(book, n - 1));
    }
  }

  /** A book that holds still is listed whole, unless it fills every page there may be, and then it is refused. */
  lemma StableBookIsListedWhole(pages: seq<Option<seq<Row>>>, book: seq<Row>)
    requires Stable(pages, book) && Distinct(book)
    ensures (exists n: nat :: EndsAt(pages, n) && Distinct(Read(pages, n))) <==> |book| < MAX_PAGES * PAGE
    ensures forall n: nat | EndsAt(pages, n) :: Read(pages, n) == book
  {
    forall n: nat | EndsAt(pages, n)
      ensures Read(pages, n) == book && |book| < MAX_PAGES * PAGE
    {
      StablePages(pages, book, n);
      assert pages[n - 1] == Some(PageOf(book, n - 1));
    }
    if |book| < MAX_PAGES * PAGE {
      var n := |book| / PAGE + 1;
      StablePages(pages, book, n);
      forall i | 0 <= i < n
        ensures |pages[i].value| == if i < n - 1 then PAGE else |book| % PAGE
      {
        assert pages[i] == Some(PageOf(book, i));
      }
      assert EndsAt(pages, n);
    }
  }
}
