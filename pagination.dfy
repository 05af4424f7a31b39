/** The page arithmetic of the product listing. */
module Pagination {
  import opened Values

  /** Rows per page; callers cannot change it. */
  const PageSize: nat := 9

  /** `parseInt(req.query.page) || 1`, where `None` is a query value that
      parses to NaN (absent or not numeric). Zero and NaN are falsy and fall
      back to 1; every other integer, negative ones included, is kept. */
  function PageNumber(query: Option<int>): (page: int)
    ensures page != 0
    ensures page == 1 <==> (query.None? || query.value in {0, 1})
    ensures query.Some? && query.value != 0 ==> page == query.value
  {
    match query
    case None => 1
    case Some(n) => if n == 0 then 1 else n
  }

  /** First index of the inclusive range requested for `page`. */
  function WindowFrom(page: int): (from: int)
    ensures from % PageSize == 0 && from / PageSize == page - 1
  {
    (page - 1) * PageSize
  }

  /** Last index of the inclusive range requested for `page`. */
  function WindowTo(page: int): (to: int)
    ensures to - WindowFrom(page) + 1 == PageSize
    ensures to % PageSize == PageSize - 1
  {
    WindowFrom(page) + PageSize - 1
  }

  /** `Math.ceil(count / 9)` as integer ceiling division: the least number of
      pages whose windows together hold `count` rows. */
  function TotalPages(count: nat): (pages: nat)
    ensures pages * PageSize >= count
    ensures pages == 0 || (pages - 1) * PageSize < count
  {
    (count + PageSize - 1) / PageSize
  }

  /** Every window holds exactly nine indices, and the window of the next
      page starts right after it: consecutive pages neither overlap nor gap. */
  lemma WindowShape(page: int)
    ensures WindowTo(page) - WindowFrom(page) + 1 == PageSize
    ensures WindowFrom(page) == (page - 1) * PageSize
    ensures WindowTo(page) + 1 == WindowFrom(page + 1)
  {}

  /** Every row index lies in the window of exactly one page, the page
      `i / 9 + 1`. */
  lemma IndexInOneWindow(i: nat, page: int)
    ensures WindowFrom(page) <= i <= WindowTo(page) <==> page == i / PageSize + 1
  {}

  /** `totalPages` is exactly the number of pages (from 1 on) whose window
      starts inside the matching rows; a page of 0 or below is counted as
      within range, since its window starts before index 0. */
  lemma TotalPagesIsNonEmptyWindows(count: nat, page: int)
    ensures page <= TotalPages(count) <==> WindowFrom(page) < count
  {}

  /** How many of `count` matching rows (indices 0 .. count-1) fall into the
      inclusive window of `page`. */
  function RowsOnPage(page: int, count: nat): (n: nat)
    ensures n <= PageSize
    ensures n > 0 <==> WindowFrom(page) < count && WindowTo(page) >= 0
  {
    var lo := if WindowFrom(page) < 0 then 0 else WindowFrom(page);
    var hi := if WindowTo(page) + 1 < count then WindowTo(page) + 1 else count;
    if hi > lo then hi - lo else 0
  }

  /** A negative page, which the page number keeps, asks for a window of
      negative indices only: it selects none of the matching rows. */
  lemma NonPositivePageSelectsNothing(page: int, count: nat)
    requires page <= 0
    ensures WindowTo(page) < 0
    ensures RowsOnPage(page, count) == 0
  {}

  /** Rows returned by pages 1 .. `pages` together. */
  function RowsThrough(pages: nat, count: nat): nat
  {
    if pages == 0 then 0 else RowsThrough(pages - 1, count) + RowsOnPage(pages, count)
  }

  /** Pages 1 .. k together return the first min(9k, count) rows. */
  lemma {:induction false} RowsThroughPrefix(k: nat, count: nat)
    ensures RowsThrough(k, count) == if k * PageSize < count then k * PageSize else count
  {
    if k > 0 {
      RowsThroughPrefix(k - 1, count);
    }
  }

  /** Walking pages 1 .. totalPages returns every matching row, and no page
      after the last one returns any. */
  lemma {:induction false} PagesCoverAllRows(count: nat, page: int)
    requires page > TotalPages(count)
    ensures RowsThrough(TotalPages(count), count) == count
    ensures RowsOnPage(page, count) == 0
  {
    RowsThroughPrefix(TotalPages(count), count);
    TotalPagesIsNonEmptyWindows(count, page);
  }

  /** The figures used to describe the listing: 20 rows make 3 pages, the
      third of which holds 2 rows; no rows make no pages. */
  lemma PageExamples()
    ensures TotalPages(20) == 3 && RowsOnPage(3, 20) == 2
    ensures TotalPages(0) == 0
    ensures TotalPages(9) == 1 && TotalPages(10) == 2
  {}
}
