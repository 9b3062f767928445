/**
 * The pager under the users table and the chinba events table (both pages
 * carry the same code): the list of page buttons with "..." markers, the page
 * count, the previous/next buttons and the offset of a page in the result list.
 */
module Pagination {
  import opened Wrappers

  /** One entry of the pager: a page button or a "..." marker. */
  datatype PageItem = Num(n: int) | Ellipsis

  /** Up to this many pages, every page gets a button. */
  const MaxPlainPages: int := 7

  function Max(a: int, b: int): int { if a >= b then a else b }
  function Min(a: int, b: int): int { if a <= b then a else b }

  /** The buttons `lo`, `lo + 1`, ..., `hi` (none when `lo > hi`). */
  function Run(lo: int, hi: int): (r: seq<PageItem>)
    ensures |r| == if lo <= hi then hi - lo + 1 else 0
    decreases hi - lo
  {
    if lo > hi then [] else [Num(lo)] + Run(lo + 1, hi)
  }

  /** The k-th button of a run is page `lo + k`. */
  lemma {:induction false} RunAt(lo: int, hi: int)
    ensures forall k :: 0 <= k < |Run(lo, hi)| ==> Run(lo, hi)[k] == Num(lo + k)
    decreases hi - lo
  {
    if lo <= hi {
      RunAt(lo + 1, hi);
      forall k | 0 <= k < |Run(lo, hi)|
        ensures Run(lo, hi)[k] == Num(lo + k)
      {
        if k > 0 {
          assert Run(lo, hi)[k] == Run(lo + 1, hi)[k - 1];
        }
      }
    }
  }

  /**
   * The pager for `page` out of `totalPages`: every page when there are at
   * most seven; otherwise the first page, the current page with its
   * neighbours, the last page, and "..." for each gap.
   */
  function PageWindow(page: int, totalPages: int): (w: seq<PageItem>)
    ensures totalPages > MaxPlainPages ==> |w| >= 2 && w[0] == Num(1) && w[|w| - 1] == Num(totalPages)
  {
    if totalPages <= MaxPlainPages then Run(1, totalPages)
    else
      [Num(1)]
      + (if page > 3 then [Ellipsis] else [])
      + Run(Max(2, page - 1), Min(totalPages - 1, page + 1))
      + (if page < totalPages - 2 then [Ellipsis] else [])
      + [Num(totalPages)]
  }

  /** Appending the next page number to a run extends the run by one. */
  lemma {:induction false} RunExtend(lo: int, hi: int)
    requires lo <= hi + 1
    ensures Run(lo, hi) + [Num(hi + 1)] == Run(lo, hi + 1)
    decreases hi - lo
  {
    if lo <= hi {
      RunExtend(lo + 1, hi);
      AppendAssoc([Num(lo)], Run(lo + 1, hi), [Num(hi + 1)]);
    } else {
      assert Run(lo, hi + 1) == [Num(lo)] + Run(lo + 1, hi + 1);
    }
  }

  /** Building the pager by pushing onto an initially empty list, as the page does. */
  method BuildPageWindow(page: int, totalPages: int) returns (pages: seq<PageItem>)
    ensures pages == PageWindow(page, totalPages)
  {
    pages := [];
    if totalPages <= MaxPlainPages {
      var i := 1;
      while i <= totalPages
        invariant 1 <= i <= Max(1, totalPages + 1)
        invariant pages == Run(1, i - 1)
      {
        RunExtend(1, i - 1);
        pages := pages + [Num(i)];
        i := i + 1;
      }
    } else {
      pages := pages + [Num(1)];
      if page > 3 {
        pages := pages + [Ellipsis];
      }
      var start := Max(2, page - 1);
      var end := Min(totalPages - 1, page + 1);
      ghost var before := pages;
      assert before == [Num(1)] + (if page > 3 then [Ellipsis] else []);
      var i := start;
      while i <= end
        invariant start <= i <= Max(start, end + 1)
        invariant pages == before + Run(start, i - 1)
      {
        RunExtend(start, i - 1);
        AppendAssoc(before, Run(start, i - 1), [Num(i)]);
        pages := pages + [Num(i)];
        i := i + 1;
      }
      assert Run(start, i - 1) == Run(start, end);
      ghost var middle := pages;
      if page < totalPages - 2 {
        pages := pages + [Ellipsis];
      }
      assert pages == middle + (if page < totalPages - 2 then [Ellipsis] else []);
      pages := pages + [Num(totalPages)];
    }
  }

  lemma AppendAssoc(a: seq<PageItem>, b: seq<PageItem>, c: seq<PageItem>)
    ensures a + b + c == a + (b + c)
  {
  }

  /** The page numbers shown strictly increase from left to right (so none is shown twice). */
  ghost predicate NumbersIncrease(w: seq<PageItem>) {
    forall i, j :: 0 <= i < j < |w| && w[i].Num? && w[j].Num? ==> w[i].n < w[j].n
  }

  /**
   * Every gap is marked and every marker is a gap: neighbouring buttons show
   * consecutive pages, and a "..." sits between two buttons and hides at least
   * one page.
   */
  ghost predicate GapsMarked(w: seq<PageItem>) {
    && (forall i :: 0 <= i < |w| - 1 && w[i].Num? && w[i + 1].Num? ==> w[i + 1].n == w[i].n + 1)
    && (forall i :: 0 <= i < |w| && w[i] == Ellipsis ==>
          0 < i < |w| - 1 && w[i - 1].Num? && w[i + 1].Num? && w[i + 1].n >= w[i - 1].n + 2)
  }

  /** With at most seven pages the pager is exactly the buttons 1 .. totalPages, in order. */
  lemma SmallWindowIsEveryPage(page: int, totalPages: int)
    requires totalPages <= MaxPlainPages
    ensures |PageWindow(page, totalPages)| == Max(0, totalPages)
    ensures forall k :: 0 <= k < |PageWindow(page, totalPages)| ==> PageWindow(page, totalPages)[k] == Num(k + 1)
  {
    RunAt(1, totalPages);
  }

  /** How many page numbers the middle run of the large pager holds. */
  function MiddleSize(page: int, totalPages: int): nat {
    Max(0, Min(totalPages - 1, page + 1) - Max(2, page - 1) + 1)
  }

  /** Entry `i` of the pager for more than seven pages, position by position. */
  function LargeAt(page: int, totalPages: int, i: int): PageItem {
    var lead := if page > 3 then 1 else 0;
    var m := MiddleSize(page, totalPages);
    if i == 0 then Num(1)
    else if i < 1 + lead then Ellipsis
    else if i < 1 + lead + m then Num(Max(2, page - 1) + (i - 1 - lead))
    else if i == 1 + lead + m && page < totalPages - 2 then Ellipsis
    else Num(totalPages)
  }

  /** The pager for more than seven pages, read position by position. */
  lemma LargeWindowAt(page: int, totalPages: int)
    requires totalPages > MaxPlainPages
    ensures var w := PageWindow(page, totalPages);
            && |w| == 2 + (if page > 3 then 1 else 0) + MiddleSize(page, totalPages)
                        + (if page < totalPages - 2 then 1 else 0)
            && forall i :: 0 <= i < |w| ==> w[i] == LargeAt(page, totalPages, i)
  {
    var w := PageWindow(page, totalPages);
    var head := [Num(1)] + (if page > 3 then [Ellipsis] else []);
    var mid := Run(Max(2, page - 1), Min(totalPages - 1, page + 1));
    var tail := (if page < totalPages - 2 then [Ellipsis] else []) + [Num(totalPages)];
    assert w == head + mid + tail;
    RunAt(Max(2, page - 1), Min(totalPages - 1, page + 1));
    forall i | 0 <= i < |w|
      ensures w[i] == LargeAt(page, totalPages, i)
    {
      if i < |head| {
        assert w[i] == head[i];
      } else if i < |head| + |mid| {
        assert w[i] == mid[i - |head|];
      } else {
        assert w[i] == tail[i - |head| - |mid|];
      }
    }
  }

  /** The page numbers of the large pager strictly increase. */
  lemma LargeWindowIncreases(page: int, totalPages: int)
    requires totalPages > MaxPlainPages
    ensures NumbersIncrease(PageWindow(page, totalPages))
  {
    var w := PageWindow(page, totalPages);
    LargeWindowAt(page, totalPages);
    forall i, j | 0 <= i < j < |w| && w[i].Num? && w[j].Num?
      ensures w[i].n < w[j].n
    {
      assert w[i] == LargeAt(page, totalPages, i);
      assert w[j] == LargeAt(page, totalPages, j);
    }
  }

  /** In the large pager neighbouring numbers are consecutive and "..." stands only between page 1 and the run, or between the run and the last page. */
  lemma LargeWindowGaps(page: int, totalPages: int)
    requires totalPages > MaxPlainPages
    ensures GapsMarked(PageWindow(page, totalPages))
    ensures var w := PageWindow(page, totalPages);
            forall i :: 0 <= i < |w| && w[i] == Ellipsis ==> i == 1 || i == |w| - 2
  {
    var w := PageWindow(page, totalPages);
    LargeWindowAt(page, totalPages);
    forall i | 0 <= i < |w| - 1 && w[i].Num? && w[i + 1].Num?
      ensures w[i + 1].n == w[i].n + 1
    {
      assert w[i] == LargeAt(page, totalPages, i);
      assert w[i + 1] == LargeAt(page, totalPages, i + 1);
    }
    forall i | 0 <= i < |w| && w[i] == Ellipsis
      ensures 0 < i < |w| - 1 && w[i - 1].Num? && w[i + 1].Num? && w[i + 1].n >= w[i - 1].n + 2
      ensures i == 1 || i == |w| - 2
    {
      assert w[i] == LargeAt(page, totalPages, i);
      assert w[i - 1] == LargeAt(page, totalPages, i - 1);
      assert w[i + 1] == LargeAt(page, totalPages, i + 1);
    }
  }

  /**
   * The shape of the pager for any page and any page count: numbers
   * increase, gaps are marked, at most seven entries, and a "..." only right
   * after the first entry or right before the last one.
   */
  lemma WindowShape(page: int, totalPages: int)
    ensures var w := PageWindow(page, totalPages);
            && NumbersIncrease(w) && GapsMarked(w) && |w| <= MaxPlainPages
            && forall i :: 0 <= i < |w| && w[i] == Ellipsis ==> i == 1 || i == |w| - 2
  {
    if totalPages > MaxPlainPages {
      LargeWindowAt(page, totalPages);
      LargeWindowIncreases(page, totalPages);
      LargeWindowGaps(page, totalPages);
    } else {
      SmallWindowIsEveryPage(page, totalPages);
    }
  }

  /** The pager of a page in range starts at page 1, ends at the last page and shows the page and its neighbours. */
  lemma WindowShowsPage(page: int, totalPages: int)
    requires 1 <= page <= totalPages
    ensures var w := PageWindow(page, totalPages);
            && w[0] == Num(1) && w[|w| - 1] == Num(totalPages)
            && Num(page) in w
            && (page > 1 ==> Num(page - 1) in w)
            && (page < totalPages ==> Num(page + 1) in w)
  {
    var w := PageWindow(page, totalPages);
    if totalPages <= MaxPlainPages {
      assert w[page - 1] == Num(page);
      if page > 1 { assert w[page - 2] == Num(page - 1); }
      if page < totalPages { assert w[page] == Num(page + 1); }
    } else {
      LargeWindowAt(page, totalPages);
      var lead := if page > 3 then 1 else 0;
      var lo := Max(2, page - 1);
      assert w[0] == LargeAt(page, totalPages, 0);
      assert w[|w| - 1] == LargeAt(page, totalPages, |w| - 1);
      forall k | 1 <= k <= totalPages && page - 1 <= k <= page + 1
        ensures Num(k) in w
      {
        if k == 1 {
          assert w[0] == Num(1);
        } else if k == totalPages {
          assert w[|w| - 1] == Num(k);
        } else {
          assert w[1 + lead + (k - lo)] == LargeAt(page, totalPages, 1 + lead + (k - lo));
        }
      }
    }
  }

  /** With more than seven pages and the page in range, "..." follows page 1 exactly when the page is past 3, and precedes the last page exactly when the page is more than two before it. */
  lemma EllipsisPlacement(page: int, totalPages: int)
    requires totalPages > MaxPlainPages && 1 <= page <= totalPages
    ensures var w := PageWindow(page, totalPages);
            && |w| >= 4
            && (w[1] == Ellipsis <==> page > 3)
            && (w[|w| - 2] == Ellipsis <==> page < totalPages - 2)
  {
    var w := PageWindow(page, totalPages);
    LargeWindowAt(page, totalPages);
    assert w[1] == LargeAt(page, totalPages, 1);
    assert w[|w| - 2] == LargeAt(page, totalPages, |w| - 2);
  }

  /** A page in range is highlighted on exactly one button, the one the user is on. */
  lemma CurrentPageHighlightedOnce(page: int, totalPages: int)
    requires 1 <= page <= totalPages
    ensures var w := PageWindow(page, totalPages);
            && (exists i :: 0 <= i < |w| && w[i] == Num(page))
            && (forall i, j :: 0 <= i < |w| && 0 <= j < |w| && w[i] == Num(page) && w[j] == Num(page) ==> i == j)
  {
    var w := PageWindow(page, totalPages);
    WindowShowsPage(page, totalPages);
    WindowShape(page, totalPages);
    var i :| 0 <= i < |w| && w[i] == Num(page);
  }

  /** Every button of the pager names a page from 1 to the last page, so a click on it keeps the page in range. */
  lemma WindowNumbersInRange(page: int, totalPages: int, p: int)
    requires Num(p) in PageWindow(page, totalPages)
    ensures 1 <= p <= totalPages
  {
    var w := PageWindow(page, totalPages);
    var i :| 0 <= i < |w| && w[i] == Num(p);
    if totalPages > MaxPlainPages {
      LargeWindowAt(page, totalPages);
      assert w[i] == LargeAt(page, totalPages, i);
    }
  }

  /** The pager is rendered only when there is more than one page. */
  predicate PagerShown(totalPages: int) {
    totalPages > 1
  }

  /** `Math.ceil(total / perPage)`: the fewest pages of `perPage` rows that hold `total` rows. */
  function TotalPages(total: nat, perPage: nat): (r: nat)
    requires perPage > 0
    ensures r * perPage >= total
    ensures r == 0 || (r - 1) * perPage < total
  {
    CeilDivision(total, perPage);
    (total + perPage - 1) / perPage
  }

  lemma CeilDivision(total: nat, perPage: nat)
    requires perPage > 0
    ensures var r := (total + perPage - 1) / perPage;
            r >= 0 && r * perPage >= total && (r == 0 || (r - 1) * perPage < total)
  {
    var n := total + perPage - 1;
    var r := n / perPage;
    assert n == r * perPage + n % perPage;
    assert r * perPage >= total;
    if r > 0 {
      assert (r - 1) * perPage == r * perPage - perPage;
    }
  }

  /** The list response's paging fields; `None` until the first response arrives, when the count is 0. */
  datatype ListMeta = ListMeta(total: nat, perPage: nat)

  function PageCount(data: Option<ListMeta>): (r: nat)
    requires data.Some? ==> data.value.perPage > 0
    ensures data.None? ==> r == 0
    ensures data.Some? ==> r * data.value.perPage >= data.value.total
    ensures data.Some? && r > 0 ==> (r - 1) * data.value.perPage < data.value.total
  {
    match data
    case None => 0
    case Some(m) => TotalPages(m.total, m.perPage)
  }

  /** The "previous" button is disabled on page 1 and before it. */
  predicate PrevDisabled(page: int) {
    page <= 1
  }

  /** The "next" button is disabled on the last page and after it. */
  predicate NextDisabled(page: int, totalPages: int) {
    page >= totalPages
  }

  /** `Math.max(1, p - 1)`: one page back, never before page 1. */
  function PrevPage(p: int): (r: int)
    ensures r >= 1
    ensures !PrevDisabled(p) ==> r == p - 1
    ensures p >= 1 ==> r <= p
  {
    Max(1, p - 1)
  }

  /** `Math.min(totalPages, p + 1)`: one page on, never past the last page. */
  function NextPage(p: int, totalPages: int): (r: int)
    ensures r <= totalPages
    ensures !NextDisabled(p, totalPages) ==> r == p + 1
    ensures 1 <= p <= totalPages ==> 1 <= r <= totalPages
  {
    Min(totalPages, p + 1)
  }

  /** `(page - 1) * limit`: how many rows precede `page`. */
  function Skip(page: int, limit: nat): (n: int)
    ensures page >= 1 ==> n >= 0
  {
    (page - 1) * limit
  }

  /** Page 1 starts at row 0, and each page starts where the one before it ends. */
  lemma SkipAdjacent(page: int, limit: nat)
    ensures Skip(1, limit) == 0
    ensures Skip(page + 1, limit) == Skip(page, limit) + limit
  {
  }

  /** Two different pages of a positive limit request disjoint row ranges. */
  lemma SkipDisjoint(p: int, q: int, limit: nat)
    requires limit > 0 && p < q
    ensures Skip(p, limit) + limit <= Skip(q, limit)
  {
    var d := q - p;
    assert (q - 1) * limit == (p - 1) * limit + d * limit;
    assert d * limit == limit + (d - 1) * limit;
    assert (d - 1) * limit >= 0;
  }

  /** Every row `i` lies on exactly one page: page `i / limit + 1`. */
  lemma RowOnPage(i: nat, limit: nat)
    requires limit > 0
    ensures var p := i / limit + 1;
            p >= 1 && Skip(p, limit) <= i < Skip(p, limit) + limit
  {
    var p := i / limit + 1;
    assert Skip(p, limit) == (i / limit) * limit;
    assert i == (i / limit) * limit + i % limit;
  }
}
