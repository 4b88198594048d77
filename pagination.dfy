/** The pager under the list screens (`Pagination`): the page count, the row
    of page buttons with ellipses for long ranges, the "shown X–Y of N" label
    and the previous/next buttons. */
module Pagination {
  import opened Common

  /** Up to this many pages around the first and last one are shown. */
  const MaxVisible: int := 5

  datatype PageItem = Page(n: int) | Ellipsis

  /** `Math.ceil(totalItems / pageSize)`. */
  function TotalPages(totalItems: nat, pageSize: nat): (r: nat)
    requires pageSize > 0
    ensures r * pageSize >= totalItems
    ensures r > 0 ==> (r - 1) * pageSize < totalItems
    ensures r == 0 <==> totalItems == 0
  {
    (totalItems + pageSize - 1) / pageSize
  }

  /** The pages `a..b` in order; empty when `a > b`. */
  function Range(a: int, b: int): (r: seq<PageItem>)
    ensures |r| == if a <= b then b - a + 1 else 0
    ensures forall k :: 0 <= k < |r| ==> r[k] == Page(a + k)
    decreases b - a
  {
    if a > b then [] else [Page(a)] + Range(a + 1, b)
  }

  /** A range grows at its right end one page at a time, as the loops build it. */
  lemma RangeSnoc(a: int, b: int)
    requires a <= b + 1
    ensures Range(a, b + 1) == Range(a, b) + [Page(b + 1)]
  {
    var l, r := Range(a, b + 1), Range(a, b) + [Page(b + 1)];
    assert |l| == |r|;
    forall k | 0 <= k < |l| ensures l[k] == r[k] {
      if k < |Range(a, b)| { assert r[k] == Range(a, b)[k]; }
    }
  }

  lemma RangeIncreasing(a: int, b: int)
    ensures Increasing(Range(a, b))
    ensures PagesWithin(Range(a, b), a, b)
  {
  }

  function Max(a: int, b: int): int { if a >= b then a else b }

  function Min(a: int, b: int): int { if a <= b then a else b }

  /** The button row as the component builds it, for a pager that is shown. */
  function Window(current: int, total: int): seq<PageItem> {
    if total <= MaxVisible + 2 then Range(1, total)
    else
      [Page(1)]
      + (if current > 3 then [Ellipsis] else [])
      + Range(Max(2, current - 1), Min(total - 1, current + 1))
      + (if current < total - 2 then [Ellipsis] else [])
      + [Page(total)]
  }

  /** The component's construction of the row; no row at all when there is
      at most one page. */
  method PageItems(currentPage: int, totalPages: int) returns (pages: seq<PageItem>, shown: bool)
    ensures shown <==> totalPages > 1
    ensures shown ==> pages == Window(currentPage, totalPages)
    ensures !shown ==> pages == []
  {
    if totalPages <= 1 {
      return [], false;
    }
    shown := true;
    if totalPages <= MaxVisible + 2 {
      pages := AllPages(totalPages);
    } else {
      pages := Windowed(currentPage, totalPages);
    }
  }

  /** The first loop: every page from 1 to `totalPages`. */
  method AllPages(totalPages: int) returns (pages: seq<PageItem>)
    requires totalPages >= 0
    ensures pages == Range(1, totalPages)
  {
    pages := [];
    var i := 1;
    while i <= totalPages
      invariant 1 <= i <= totalPages + 1
      invariant pages == Range(1, i - 1)
    {
      RangeSnoc(1, i - 1);
      pages := pages + [Page(i)];
      i := i + 1;
    }
  }

  /** The long-range branch: the first page, an optional ellipsis, the
      current page's neighbourhood by the second loop, an optional ellipsis,
      the last page. */
  method Windowed(currentPage: int, totalPages: int) returns (pages: seq<PageItem>)
    requires totalPages > MaxVisible + 2
    ensures pages == Window(currentPage, totalPages)
  {
    pages := [Page(1)];
    if currentPage > 3 {
      pages := pages + [Ellipsis];
    }
    var start := Max(2, currentPage - 1);
    var end := Min(totalPages - 1, currentPage + 1);
    var mid := [];
    var i := start;
    while i <= end
      invariant start <= i && (start <= end + 1 ==> i <= end + 1)
      invariant start > end ==> i == start
      invariant mid == Range(start, i - 1)
    {
      RangeSnoc(start, i - 1);
      mid := mid + [Page(i)];
      i := i + 1;
    }
    pages := pages + mid;
    if currentPage < totalPages - 2 {
      pages := pages + [Ellipsis];
    }
    pages := pages + [Page(totalPages)];
  }

  // ---- properties of the row ----

  /** Numbered entries strictly increase from left to right. */
  predicate Increasing(w: seq<PageItem>) {
    forall i, j :: 0 <= i < j < |w| && w[i].Page? && w[j].Page? ==> w[i].n < w[j].n
  }

  /** Every numbered entry is a page between `lo` and `hi`. */
  predicate PagesWithin(w: seq<PageItem>, lo: int, hi: int) {
    forall i :: 0 <= i < |w| && w[i].Page? ==> lo <= w[i].n <= hi
  }

  /** Two increasing runs, the second above the first, make an increasing
      run spanning both ranges. */
  lemma {:induction false} IncreasingConcat(a: seq<PageItem>, b: seq<PageItem>, lo: int, m: int, hi: int)
    requires Increasing(a) && Increasing(b)
    requires PagesWithin(a, lo, m - 1) && PagesWithin(b, m, hi) && lo <= m <= hi + 1
    ensures Increasing(a + b) && PagesWithin(a + b, lo, hi)
  {
    var w := a + b;
    forall i, j | 0 <= i < j < |w| && w[i].Page? && w[j].Page?
      ensures w[i].n < w[j].n
    {
      if j < |a| {
        assert w[i] == a[i] && w[j] == a[j];
      } else if i >= |a| {
        assert w[i] == b[i - |a|] && w[j] == b[j - |a|];
      } else {
        assert w[i] == a[i] && w[j] == b[j - |a|];
      }
    }
    forall i | 0 <= i < |w| && w[i].Page? ensures lo <= w[i].n <= hi {
      if i < |a| { assert w[i] == a[i]; } else { assert w[i] == b[i - |a|]; }
    }
  }

  /** A run within a range is within any wider range. */
  lemma PagesWithinWiden(w: seq<PageItem>, lo: int, hi: int, lo2: int, hi2: int)
    requires PagesWithin(w, lo, hi) && lo2 <= lo && hi <= hi2
    ensures PagesWithin(w, lo2, hi2)
  {
  }

  /** The row is strictly increasing and stays within `1..total`. */
  lemma WindowIncreasing(current: int, total: int)
    requires total > 1
    ensures Increasing(Window(current, total))
    ensures PagesWithin(Window(current, total), 1, total)
  {
    if total <= MaxVisible + 2 {
      RangeIncreasing(1, total);
    } else {
      LongWindowIncreasing(current, total);
    }
  }

  /** The long-range row is built from increasing pieces, each above the
      one before it. */
  lemma LongWindowIncreasing(current: int, total: int)
    requires total > MaxVisible + 2
    ensures Increasing(Window(current, total))
    ensures PagesWithin(Window(current, total), 1, total)
  {
    var e1: seq<PageItem> := if current > 3 then [Ellipsis] else [];
    var e2: seq<PageItem> := if current < total - 2 then [Ellipsis] else [];
    var s, e := Max(2, current - 1), Min(total - 1, current + 1);
    var mid := Range(s, e);
    var a := [Page(1)] + e1;
    var c := e2 + [Page(total)];
    RangeIncreasing(s, e);
    var m := Min(s, total - 1);
    PagesWithinWiden(mid, s, e, m, total - 1);
    assert Increasing(a) && PagesWithin(a, 1, m - 1);
    IncreasingConcat(a, mid, 1, m, total - 1);
    var am := a + mid;
    assert Increasing(c) && PagesWithin(c, total, total);
    IncreasingConcat(am, c, 1, total, total);
    assert Window(current, total) == am + c;
  }

  /** The row has at most seven entries. */
  lemma WindowSize(current: int, total: int)
    ensures |Window(current, total)| <= MaxVisible + 2
  {
  }

  /** Above seven pages the row starts with the first page and ends with the
      last; an ellipsis follows the first page iff the current page is past
      the third, and one precedes the last page iff the current page is before
      the third from the end. */
  lemma WindowEnds(current: int, total: int)
    requires 1 <= current <= total && total > MaxVisible + 2
    ensures var w := Window(current, total);
      |w| >= 3 && w[0] == Page(1) && w[|w| - 1] == Page(total) &&
      (w[1] == Ellipsis <==> current > 3) &&
      (w[|w| - 2] == Ellipsis <==> current < total - 2)
  {
    var s, e := Max(2, current - 1), Min(total - 1, current + 1);
    var e1: seq<PageItem> := if current > 3 then [Ellipsis] else [];
    var e2: seq<PageItem> := if current < total - 2 then [Ellipsis] else [];
    var w := Window(current, total);
    assert w == [Page(1)] + e1 + Range(s, e) + e2 + [Page(total)];
    if current <= 3 {
      assert s == 2 && e >= 2;
      assert w[1] == Range(s, e)[0];
    }
    if current >= total - 2 {
      assert e == total - 1 && s <= e;
      assert w[|w| - 2] == Range(s, e)[|Range(s, e)| - 1];
    }
  }

  /** Up to seven pages, the row is exactly the pages `1..total`. */
  lemma SmallWindowIsAllPages(current: int, total: int)
    requires 1 < total <= MaxVisible + 2
    ensures |Window(current, total)| == total
    ensures forall k :: 0 <= k < total ==> Window(current, total)[k] == Page(k + 1)
  {
  }

  /** A current page within range always has its own button. */
  lemma WindowHasCurrent(current: int, total: int)
    requires 1 <= current <= total && total > 1
    ensures Page(current) in Window(current, total)
  {
    var w := Window(current, total);
    if total <= MaxVisible + 2 {
      assert w[current - 1] == Page(current);
    } else if current == 1 {
      assert w[0] == Page(1);
    } else if current == total {
      assert w[|w| - 1] == Page(total);
    } else {
      var s, e := Max(2, current - 1), Min(total - 1, current + 1);
      var e1: seq<PageItem> := if current > 3 then [Ellipsis] else [];
      var e2: seq<PageItem> := if current < total - 2 then [Ellipsis] else [];
      assert w == [Page(1)] + e1 + Range(s, e) + e2 + [Page(total)];
      assert Range(s, e)[current - s] == Page(current);
      assert w[1 + |e1| + (current - s)] == Page(current);
    }
  }

  /** Neighbouring buttons are neighbouring pages. */
  predicate Contiguous(w: seq<PageItem>) {
    forall i :: 0 <= i < |w| - 1 && w[i].Page? && w[i + 1].Page? ==> w[i + 1].n == w[i].n + 1
  }

  /** Every ellipsis sits between two page buttons and stands for at least
      one page between them. */
  predicate EllipsesHidePages(w: seq<PageItem>) {
    forall i :: 0 <= i < |w| && w[i].Ellipsis? ==>
      0 < i < |w| - 1 && w[i - 1].Page? && w[i + 1].Page? && w[i + 1].n >= w[i - 1].n + 2
  }

  /** For a current page in range no page is skipped silently: the buttons
      and ellipses together account for every page from 1 to `total`. */
  lemma WindowAccountsForEveryPage(current: int, total: int)
    requires 1 <= current <= total && total > 1
    ensures Contiguous(Window(current, total))
    ensures EllipsesHidePages(Window(current, total))
  {
    var w := Window(current, total);
    if total <= MaxVisible + 2 {
    } else if current <= 3 {
      NearStartShape(current, total);
      HeadRowAccounts(current + 1, total);
    } else if current >= total - 2 {
      NearEndShape(current, total);
      TailRowAccounts(current - 1, total);
    } else {
      MiddleShape(current, total);
      MiddleRowAccounts(current, total);
    }
  }

  lemma NearStartShape(current: int, total: int)
    requires 1 <= current <= 3 && total > MaxVisible + 2
    ensures Window(current, total) == Range(1, current + 1) + [Ellipsis, Page(total)]
  {
    assert Max(2, current - 1) == 2 && Min(total - 1, current + 1) == current + 1;
    assert Range(1, current + 1) == [Page(1)] + Range(2, current + 1);
  }

  lemma NearEndShape(current: int, total: int)
    requires total - 2 <= current <= total && total > MaxVisible + 2
    ensures Window(current, total) == [Page(1), Ellipsis] + Range(current - 1, total)
  {
    assert Max(2, current - 1) == current - 1 && Min(total - 1, current + 1) == total - 1;
    RangeSnoc(current - 1, total - 1);
  }

  lemma MiddleShape(current: int, total: int)
    requires 3 < current < total - 2 && total > MaxVisible + 2
    ensures Window(current, total) == [Page(1), Ellipsis] + Range(current - 1, current + 1) + [Ellipsis, Page(total)]
  {
    assert Max(2, current - 1) == current - 1 && Min(total - 1, current + 1) == current + 1;
  }

  /** The row near the start of a long list: the first pages in a run, one
      ellipsis, the last page. */
  lemma HeadRowAccounts(k: int, t: int)
    requires 2 <= k && k + 1 < t
    ensures Contiguous(Range(1, k) + [Ellipsis, Page(t)])
    ensures EllipsesHidePages(Range(1, k) + [Ellipsis, Page(t)])
  {
    var w := Range(1, k) + [Ellipsis, Page(t)];
    assert |w| == k + 2 && w[k] == Ellipsis && w[k + 1] == Page(t);
    assert forall j :: 0 <= j < k ==> w[j] == Page(1 + j);
    forall i | 0 <= i < |w| - 1 && w[i].Page? && w[i + 1].Page? ensures w[i + 1].n == w[i].n + 1 {
      assert i + 1 < k;
    }
    forall i | 0 <= i < |w| && w[i].Ellipsis?
      ensures 0 < i < |w| - 1 && w[i - 1].Page? && w[i + 1].Page? && w[i + 1].n >= w[i - 1].n + 2
    {
      assert i == k;
    }
  }

  /** The row near the end of a long list: the first page, one ellipsis,
      the last pages in a run. */
  lemma TailRowAccounts(k: int, t: int)
    requires 2 < k < t
    ensures Contiguous([Page(1), Ellipsis] + Range(k, t))
    ensures EllipsesHidePages([Page(1), Ellipsis] + Range(k, t))
  {
    var w := [Page(1), Ellipsis] + Range(k, t);
    assert |w| == t - k + 3 && w[0] == Page(1) && w[1] == Ellipsis;
    assert forall j :: 2 <= j < |w| ==> w[j] == Page(k + j - 2);
    forall i | 0 <= i < |w| - 1 && w[i].Page? && w[i + 1].Page? ensures w[i + 1].n == w[i].n + 1 {
      assert i >= 2;
    }
    forall i | 0 <= i < |w| && w[i].Ellipsis?
      ensures 0 < i < |w| - 1 && w[i - 1].Page? && w[i + 1].Page? && w[i + 1].n >= w[i - 1].n + 2
    {
      assert i == 1;
    }
  }

  /** The row in the middle of a long list: the first page, an ellipsis,
      three pages in a run, an ellipsis, the last page. */
  lemma MiddleRowAccounts(c: int, t: int)
    requires 3 < c < t - 2
    ensures Contiguous([Page(1), Ellipsis] + Range(c - 1, c + 1) + [Ellipsis, Page(t)])
    ensures EllipsesHidePages([Page(1), Ellipsis] + Range(c - 1, c + 1) + [Ellipsis, Page(t)])
  {
    var w := [Page(1), Ellipsis] + Range(c - 1, c + 1) + [Ellipsis, Page(t)];
    assert w == [Page(1), Ellipsis, Page(c - 1), Page(c), Page(c + 1), Ellipsis, Page(t)];
  }

  // ---- the label and the arrows ----

  /** "Показано from–to из totalItems". */
  function ShownRange(current: int, pageSize: nat, totalItems: nat): (r: (int, int)) {
    (Min((current - 1) * pageSize + 1, totalItems), Min(current * pageSize, totalItems))
  }

  /** On a page in range the label counts that page's rows: it starts right
      after the previous pages' rows, holds at most a page of them, and the
      last page ends at the last row. */
  lemma ShownRangeOnPage(current: int, pageSize: nat, totalItems: nat)
    requires pageSize > 0 && 1 <= current <= TotalPages(totalItems, pageSize)
    ensures var (from, to) := ShownRange(current, pageSize, totalItems);
      from == (current - 1) * pageSize + 1 && from <= to &&
      to - from + 1 <= pageSize &&
      (current == TotalPages(totalItems, pageSize) ==> to == totalItems)
  {
    var total := TotalPages(totalItems, pageSize);
    var before := (current - 1) * pageSize;
    MulLe(current - 1, total - 1, pageSize);
    assert before < totalItems;
    assert current * pageSize == before + pageSize;
    if current == total {
      assert current * pageSize >= totalItems;
    }
  }

  /** Consecutive pages' ranges meet without gap or overlap. */
  lemma ShownRangesTile(current: int, pageSize: nat, totalItems: nat)
    requires pageSize > 0 && 1 <= current < TotalPages(totalItems, pageSize)
    ensures ShownRange(current, pageSize, totalItems).1 + 1 == ShownRange(current + 1, pageSize, totalItems).0
  {
    var total := TotalPages(totalItems, pageSize);
    var upTo := current * pageSize;
    MulLe(current, total - 1, pageSize);
    assert upTo < totalItems;
    assert (current + 1 - 1) * pageSize == upTo;
  }

  /** Multiplying by a natural number keeps the order. */
  lemma {:induction false} MulLe(a: int, b: int, k: nat)
    requires a <= b
    ensures a * k <= b * k
  {
    if k > 0 {
      MulLe(a, b, k - 1);
      assert a * k == a * (k - 1) + a && b * k == b * (k - 1) + b;
    }
  }

  /** The arrow buttons: the page each one asks for, or none when disabled. */
  function PrevTarget(current: int): (r: Option<int>)
    ensures r.Some? <==> current != 1
    ensures r.Some? ==> r.value == current - 1
  {
    if current == 1 then None else Some(current - 1)
  }

  function NextTarget(current: int, total: int): (r: Option<int>)
    ensures r.Some? <==> current != total
    ensures r.Some? ==> r.value == current + 1
  {
    if current == total then None else Some(current + 1)
  }

  /** From a page in range, an enabled arrow leads to a page in range. */
  lemma ArrowsStayInRange(current: int, total: int)
    requires 1 <= current <= total
    ensures PrevTarget(current).Some? ==> 1 <= PrevTarget(current).value <= total
    ensures NextTarget(current, total).Some? ==> 1 <= NextTarget(current, total).value <= total
  {
  }
}
