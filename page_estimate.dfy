/** The total the list screens hand to `Pagination`. The server returns one
    page of at most fifty rows and no total, so the screens estimate one:
    a short first page is the whole list; otherwise everything up to the
    current page, plus one more row when the page came back full so that a
    next page is offered. Declarations, tasks, certificates, clients, and
    the administrator's companies, users and requests all use this rule. */
module PageEstimate {
  import Pagination

  const PageSize: nat := 50

  /** `skip` of the list request for a page. */
  function Skip(page: int): (r: int)
    ensures page >= 1 ==> r >= 0 && r % PageSize == 0 && r / PageSize == page - 1
  {
    (page - 1) * PageSize
  }

  /** The `totalCount` estimate from the current page and the number of rows
      it returned. */
  function EstimatedTotal(page: int, rows: nat): (r: int)
    ensures page >= 1 ==> r >= 0
    ensures page == 1 && rows < PageSize ==> r == rows
  {
    if rows < PageSize && page == 1 then rows
    else page * PageSize + (if rows == PageSize then 1 else 0)
  }

  /** A full page always offers exactly one more page. */
  lemma FullPageOffersNext(page: int)
    requires page >= 1
    ensures Pagination.TotalPages(EstimatedTotal(page, PageSize), PageSize) == page + 1
  {
    var total := EstimatedTotal(page, PageSize);
    assert total == page * PageSize + 1;
    var n := Pagination.TotalPages(total, PageSize);
    assert n * PageSize >= page * PageSize + 1;
    assert (n - 1) * PageSize < page * PageSize + 1;
  }

  /** After the first page, a page that did not come back full is the last
      one offered. */
  lemma ShortPageIsLast(page: int, rows: nat)
    requires page > 1 && rows != PageSize
    ensures Pagination.TotalPages(EstimatedTotal(page, rows), PageSize) == page
  {
    var total := EstimatedTotal(page, rows);
    assert total == page * PageSize;
    var n := Pagination.TotalPages(total, PageSize);
    assert n * PageSize >= page * PageSize;
    assert (n - 1) * PageSize < page * PageSize;
  }

  /** A short first page offers at most one page, so no page buttons are
      drawn. */
  lemma ShortFirstPageHidesButtons(rows: nat)
    requires rows < PageSize
    ensures Pagination.TotalPages(EstimatedTotal(1, rows), PageSize) <= 1
  {
    var n := Pagination.TotalPages(rows, PageSize);
    assert (n - 1) * PageSize < rows || n == 0;
  }

  /** The estimate never offers fewer pages than the one being shown, so the
      current page is always in range. */
  lemma CurrentPageInRange(page: int, rows: nat)
    requires page >= 1 && (page > 1 || rows > 0)
    ensures 1 <= page <= Pagination.TotalPages(EstimatedTotal(page, rows), PageSize)
  {
    if rows == PageSize {
      FullPageOffersNext(page);
    } else if page > 1 {
      ShortPageIsLast(page, rows);
    }
  }
}
