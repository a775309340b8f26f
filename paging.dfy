/**
 * Pagination of the article list (src/pages/Articles.tsx and the
 * stand-alone table src/components/article/ArticlesTable.tsx, which repeat
 * the same expressions): the page count, the window shown, the list of
 * page links and the previous/next handlers.
 */
module Paging {

  /** The page sizes offered by the "Filas por página" select. */
  predicate OfferedPageSize(k: int)
  {
    k == 5 || k == 10 || k == 20 || k == 50
  }

  /** `Math.ceil(n / perPage)`; no minimum of one page. */
  function TotalPages(n: nat, perPage: nat): (t: nat)
    requires perPage > 0
    ensures t * perPage >= n
    ensures n > 0 ==> (t - 1) * perPage < n
    ensures t == 0 <==> n == 0
  {
    (n + perPage - 1) / perPage
  }

  /** JavaScript's `Array.prototype.slice`: negative bounds count from the end, all bounds are clamped. */
  function Slice<T>(s: seq<T>, start: int, end: int): (r: seq<T>)
  {
    var from := if start < 0 then Max(|s| + start, 0) else Min(start, |s|);
    var to := if end < 0 then Max(|s| + end, 0) else Min(end, |s|);
    if from >= to then [] else s[from..to]
  }

  function Min(a: int, b: int): int { if a <= b then a else b }
  function Max(a: int, b: int): int { if a >= b then a else b }

  /** `articles.slice((currentPage - 1) * perPage, (currentPage - 1) * perPage + perPage)`. */
  function PageWindow<T>(s: seq<T>, page: int, perPage: nat): seq<T>
  {
    var startIndex := (page - 1) * perPage;
    Slice(s, startIndex, startIndex + perPage)
  }

  /** `Array.from({ length: totalPages }, (_, i) => i + 1)`. */
  function PageLinks(totalPages: nat): (links: seq<int>)
    ensures |links| == totalPages
    ensures forall i | 0 <= i < |links| :: links[i] == i + 1
  {
    seq(totalPages, i requires 0 <= i < totalPages => i + 1)
  }

  /** The previous-page handler: `prev => Math.max(prev - 1, 1)`. */
  function PreviousPage(page: int): int
  {
    Max(page - 1, 1)
  }

  /** The next-page handler: `prev => Math.min(prev + 1, totalPages)`. */
  function NextPage(page: int, totalPages: nat): int
  {
    Min(page + 1, totalPages)
  }

  /** The previous link is greyed out on the first page. */
  predicate PreviousDisabled(page: int)
  {
    page == 1
  }

  /** The next link is greyed out on the last page. */
  predicate NextDisabled(page: int, totalPages: nat)
  {
    page == totalPages
  }

  /**
   * For a page of at least 1, the window is the contiguous run of items
   * from index `(page - 1) * perPage`, truncated at the end of the list;
   * it never holds more than `perPage` items.
   */
  lemma PageWindowIsRun<T>(s: seq<T>, page: int, perPage: nat)
    requires page >= 1
    ensures var lo := Min((page - 1) * perPage, |s|);
            var hi := Min(page * perPage, |s|);
            PageWindow(s, page, perPage) == s[lo..hi]
    ensures |PageWindow(s, page, perPage)| <= perPage
  {
    var startIndex := (page - 1) * perPage;
    StepBounds(page, perPage);
    var from := Min(startIndex, |s|);
    var to := Min(startIndex + perPage, |s|);
    assert PageWindow(s, page, perPage) == if from >= to then [] else s[from..to];
  }

  /** The page-start arithmetic: `(page - 1) * perPage` is non-negative and `perPage` short of `page * perPage`. */
  lemma StepBounds(page: int, perPage: nat)
    requires page >= 1
    ensures (page - 1) * perPage >= 0
    ensures (page - 1) * perPage + perPage == page * perPage
  {
  }

  /**
   * Every page but the last holds exactly `perPage` items, and the last
   * holds the remainder.
   */
  lemma PageSizes<T>(s: seq<T>, page: nat, perPage: nat)
    requires perPage > 0 && 1 <= page <= TotalPages(|s|, perPage)
    ensures page < TotalPages(|s|, perPage) ==> |PageWindow(s, page, perPage)| == perPage
    ensures page == TotalPages(|s|, perPage) ==> |PageWindow(s, page, perPage)| == |s| - (page - 1) * perPage
  {
    PageWindowIsRun(s, page, perPage);
    StepBounds(page, perPage);
    var t := TotalPages(|s|, perPage);
    var lo, hi := (page - 1) * perPage, page * perPage;
    if page < t {
      MulMonotone(page, t - 1, perPage);
      assert hi <= (t - 1) * perPage < |s|;
    } else {
      MulMonotone(page - 1, t - 1, perPage);
      assert lo < |s| <= hi;
    }
  }

  lemma MulMonotone(a: int, b: int, k: nat)
    requires a <= b
    ensures a * k <= b * k
  {
  }

  /** Pages 1 to `count` laid end to end. */
  function Pages<T>(s: seq<T>, count: nat, perPage: nat): seq<T>
  {
    if count == 0 then [] else Pages(s, count - 1, perPage) + PageWindow(s, count, perPage)
  }

  /** The first `count` pages together are the first `count * perPage` items. */
  lemma {:induction false} PagesArePrefix<T>(s: seq<T>, count: nat, perPage: nat)
    ensures Pages(s, count, perPage) == s[..Min(count * perPage, |s|)]
  {
    if count > 0 {
      PagesArePrefix(s, count - 1, perPage);
      PageWindowIsRun(s, count, perPage);
      StepBounds(count, perPage);
      var a, b := Min((count - 1) * perPage, |s|), Min(count * perPage, |s|);
      assert a <= b;
      assert s[..a] + s[a..b] == s[..b];
    }
  }

  /** All pages together list every item exactly once, in order. */
  lemma AllPagesCoverList<T>(s: seq<T>, perPage: nat)
    requires perPage > 0
    ensures Pages(s, TotalPages(|s|, perPage), perPage) == s
  {
    PagesArePrefix(s, TotalPages(|s|, perPage), perPage);
  }

  /**
   * Previous never goes below 1 and is a no-op on page 1; next never
   * exceeds the page count and is a no-op on the last page.
   */
  lemma NavigationClamps(page: int, totalPages: nat)
    ensures PreviousPage(page) >= 1
    ensures PreviousDisabled(page) ==> PreviousPage(page) == page
    ensures page >= 1 ==> PreviousPage(page) == page - 1 || PreviousPage(page) == 1
    ensures NextPage(page, totalPages) <= totalPages
    ensures NextDisabled(page, totalPages) ==> NextPage(page, totalPages) == page
    ensures page < totalPages ==> NextPage(page, totalPages) == page + 1
  {
  }

  /**
   * With an empty list there are no pages, the next link stays enabled on
   * page 1, and following it moves to page 0, whose window is empty.
   */
  lemma NextOnEmptyList<T>(s: seq<T>, perPage: nat)
    requires s == [] && perPage > 0
    ensures TotalPages(|s|, perPage) == 0
    ensures !NextDisabled(1, TotalPages(|s|, perPage))
    ensures NextPage(1, TotalPages(|s|, perPage)) == 0
    ensures PageWindow(s, 0, perPage) == []
  {
  }

  /**
   * The first page under any offered page size is the first `perPage`
   * items, or the whole list when it is shorter.
   */
  lemma FirstPageIsPrefix<T>(s: seq<T>, newPerPage: nat)
    requires OfferedPageSize(newPerPage)
    ensures PageWindow(s, 1, newPerPage) == s[..Min(newPerPage, |s|)]
    ensures |s| >= newPerPage ==> |PageWindow(s, 1, newPerPage)| == newPerPage
  {
    PageWindowIsRun(s, 1, newPerPage);
  }
}
