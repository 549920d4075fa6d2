/** The "recent training sessions" pager of both dashboards: five sessions
    per page, `Math.ceil(n / 5)` pages, Previous and Next buttons clamped to
    the first and last page and disabled there, numbered page buttons, and
    a "Showing a-b of n" label. The controls are drawn only when there is
    more than one page. */
module Paging {
  import opened JsArray

  /** `Math.ceil(n / sessionsPerPage)`. */
  function TotalPages(n: nat): (t: nat)
    ensures n <= t * 5
    ensures t > 0 ==> (t - 1) * 5 < n
    ensures t == 0 <==> n == 0
  {
    (n + 4) / 5
  }

  /** `(currentPage - 1) * sessionsPerPage` and five more, with five
      sessions per page. */
  function PageStart(page: int): int {
    (page - 1) * 5
  }

  function PageEnd(page: int): int {
    PageStart(page) + 5
  }

  /** `items.slice(startIndex, endIndex)`: at most five items, those from
      the page's start on; a page past the last one is empty. */
  function PageOf<T>(items: seq<T>, page: int): (r: seq<T>)
    ensures |r| <= 5
    ensures 1 <= page ==> PageStart(page) + |r| <= |items| || r == []
    ensures 1 <= page ==> forall k :: 0 <= k < |r| ==> r[k] == items[PageStart(page) + k]
    ensures 1 <= page <= TotalPages(|items|) ==> 0 < |r|
    ensures 1 <= page <= TotalPages(|items|) ==>
              |r| == (if PageEnd(page) <= |items| then 5 else |items| - PageStart(page))
    ensures TotalPages(|items|) < page ==> r == []
  {
    Slice(items, PageStart(page), PageEnd(page))
  }

  /** Every item is shown once: item `i` is item `i % 5` of page
      `i / 5 + 1`, a page that has a button. */
  lemma ItemOnItsPage<T>(items: seq<T>, i: nat)
    requires i < |items|
    ensures 1 <= i / 5 + 1 <= TotalPages(|items|)
    ensures i % 5 < |PageOf(items, i / 5 + 1)| && PageOf(items, i / 5 + 1)[i % 5] == items[i]
  {
    assert PageStart(i / 5 + 1) + i % 5 == i;
  }

  /** The pager is drawn exactly when there are more than five items. */
  predicate ShowControls(n: nat) {
    TotalPages(n) > 1
  }

  lemma ShowControlsIff(n: nat)
    ensures ShowControls(n) <==> n > 5
  {
  }

  /** The label "Showing a-b of n": the first and last position shown. */
  function RangeLabel(n: nat, page: int): (r: (int, int))
    ensures 1 <= page <= TotalPages(n) ==> 1 <= r.0 <= r.1 <= n
  {
    (PageStart(page) + 1, if PageEnd(page) < n then PageEnd(page) else n)
  }

  /** The label counts exactly the items on the page. */
  lemma RangeLabelCountsPage<T>(items: seq<T>, page: int)
    requires 1 <= page <= TotalPages(|items|)
    ensures var (first, last) := RangeLabel(|items|, page);
            last - first + 1 == |PageOf(items, page)| && first == PageStart(page) + 1
  {
  }

  /** A click on the pager: Previous, Next, or a numbered button. */
  datatype Click = Previous | Next | Numbered(page: int)

  /** The page after a click. Previous goes to `max(1, page - 1)` and Next
      to `min(totalPages, page + 1)`; each is disabled on its bound, where a
      click changes nothing. Numbered buttons exist for pages 1 to
      `totalPages` only. */
  function Step(page: int, total: nat, c: Click): (p: int)
    ensures 1 <= page <= total ==> 1 <= p <= total
    ensures c == Previous && 1 < page <= total ==> p == page - 1
    ensures c == Next && 1 <= page < total ==> p == page + 1
    ensures c == Previous && page == 1 ==> p == 1
    ensures c == Next && page == total ==> p == total
    ensures c.Numbered? && 1 <= c.page <= total ==> p == c.page
    ensures c.Numbered? && !(1 <= c.page <= total) ==> p == page
  {
    match c
    case Previous => if page == 1 then page else if page - 1 < 1 then 1 else page - 1
    case Next => if page == total then page else if total < page + 1 then total else page + 1
    case Numbered(k) => if 1 <= k <= total then k else page
  }
}
