/**
 * The arithmetic of the `Pagination` component: the page count, the two
 * navigation guards, the list of page buttons with '...' gaps around a
 * window of two pages either side of the current one, whether the
 * component renders at all, and the "first - last" item range it shows.
 */
module Pagination {

  /** An entry of the page-button list: a page number or a '...' gap. */
  datatype PageEntry = Page(n: int) | Dots

  /** The number of pages either side of the current one. */
  const Delta: int := 2

  function Max(a: int, b: int): int { if a < b then b else a }
  function Min(a: int, b: int): int { if a < b then a else b }

  /** `Math.ceil(totalItems / itemsPerPage)`. */
  function TotalPages(totalItems: nat, itemsPerPage: int): (pages: nat)
    requires itemsPerPage > 0
    ensures totalItems <= pages * itemsPerPage
    ensures pages > 0 ==> (pages - 1) * itemsPerPage < totalItems
  {
    (totalItems + itemsPerPage - 1) / itemsPerPage
  }

  predicate CanGoPrevious(currentPage: int) {
    currentPage > 1
  }

  predicate CanGoNext(hasMore: bool, currentPage: int, totalPages: int) {
    hasMore || currentPage < totalPages
  }

  // ---------------------------------------------------------------------
  // The page-button list

  /** The pages `lo`, `lo + 1`, ..., `hi` (none when `hi < lo`). */
  function Window(lo: int, hi: int): (w: seq<PageEntry>)
    ensures |w| == Max(0, hi - lo + 1)
    ensures forall k :: 0 <= k < |w| ==> w[k] == Page(lo + k)
  {
    seq(Max(0, hi - lo + 1), k => Page(lo + k))
  }

  /** What `getVisiblePages` returns: page 1, a gap if the window starts
      after page 3, the window `[max(2, current - 2), min(total - 1,
      current + 2)]`, a gap if the window ends before `total - 1`, and the
      last page. */
  function VisiblePages(currentPage: int, totalPages: int): seq<PageEntry> {
    (if currentPage - Delta > 2 then [Page(1), Dots] else [Page(1)])
    + Window(Max(2, currentPage - Delta), Min(totalPages - 1, currentPage + Delta))
    + (if currentPage + Delta < totalPages - 1 then [Dots, Page(totalPages)]
       else if totalPages > 1 then [Page(totalPages)]
       else [])
  }

  /** `getVisiblePages()`: the window filled by a loop, then wrapped. */
  method GetVisiblePages(currentPage: int, totalPages: int) returns (rangeWithDots: seq<PageEntry>)
    ensures rangeWithDots == VisiblePages(currentPage, totalPages)
  {
    var lo, hi := Max(2, currentPage - Delta), Min(totalPages - 1, currentPage + Delta);
    var range: seq<PageEntry> := [];
    var i := lo;
    while i <= hi
      invariant lo <= i <= Max(lo, hi + 1)
      invariant range == Window(lo, i - 1)
    {
      range := range + [Page(i)];
      i := i + 1;
    }
    if currentPage - Delta > 2 {
      rangeWithDots := [Page(1), Dots];
    } else {
      rangeWithDots := [Page(1)];
    }
    rangeWithDots := rangeWithDots + range;
    if currentPage + Delta < totalPages - 1 {
      rangeWithDots := rangeWithDots + [Dots, Page(totalPages)];
    } else if totalPages > 1 {
      rangeWithDots := rangeWithDots + [Page(totalPages)];
    }
  }

  /** The list always starts with page 1, and ends with the last page when
      there is more than one. */
  lemma VisiblePagesEnds(currentPage: int, totalPages: int)
    ensures VisiblePages(currentPage, totalPages)[0] == Page(1)
    ensures totalPages > 1 ==> var v := VisiblePages(currentPage, totalPages); v[|v| - 1] == Page(totalPages)
  {
  }

  /** Where the gaps are: a '...' follows page 1 exactly when the current
      page is past 4, and one precedes the last page exactly when the
      current page is more than 3 before it. */
  lemma VisiblePagesGaps(currentPage: int, totalPages: int)
    requires 1 <= currentPage <= totalPages
    ensures var v := VisiblePages(currentPage, totalPages);
      && (|v| > 1 && v[1] == Dots <==> currentPage - Delta > 2)
      && (|v| > 1 && v[|v| - 2] == Dots <==> currentPage + Delta < totalPages - 1)
  {
    var v := VisiblePages(currentPage, totalPages);
    var lead := if currentPage - Delta > 2 then [Page(1), Dots] else [Page(1)];
    var w := Window(Max(2, currentPage - Delta), Min(totalPages - 1, currentPage + Delta));
    var tail := if currentPage + Delta < totalPages - 1 then [Dots, Page(totalPages)]
      else if totalPages > 1 then [Page(totalPages)] else [];
    assert v == lead + w + tail;
    if w != [] {
      assert v[|lead|] == w[0];
    }
    if |v| > 1 && v[|v| - 2] == Dots && currentPage + Delta >= totalPages - 1 {
      assert |tail| <= 1;
    }
  }

  /** The page numbers are strictly increasing and lie in `[1, total]`, so
      none repeats; two gaps are never next to each other. */
  lemma VisiblePagesOrdered(currentPage: int, totalPages: int)
    requires 1 <= currentPage <= totalPages
    ensures var v := VisiblePages(currentPage, totalPages);
      && (forall i :: 0 <= i < |v| && v[i].Page? ==> 1 <= v[i].n <= totalPages)
      && (forall i, j :: 0 <= i < j < |v| && v[i].Page? && v[j].Page? ==> v[i].n < v[j].n)
      && (forall i :: 0 <= i < |v| - 1 ==> v[i].Page? || v[i + 1].Page?)
  {
    var v := VisiblePages(currentPage, totalPages);
    var lo, hi := Max(2, currentPage - Delta), Min(totalPages - 1, currentPage + Delta);
    var lead := if currentPage - Delta > 2 then [Page(1), Dots] else [Page(1)];
    var w := Window(lo, hi);
    var tail := if currentPage + Delta < totalPages - 1 then [Dots, Page(totalPages)]
      else if totalPages > 1 then [Page(totalPages)] else [];
    assert v == lead + w + tail;
    forall i, j | 0 <= i < j < |v| && v[i].Page? && v[j].Page?
      ensures v[i].n < v[j].n
    {
      if j >= |lead| + |w| {
        assert v[j] == Page(totalPages);
      }
    }
  }

  /** Every page within two of the current one is offered. */
  lemma VisiblePagesNeighbours(currentPage: int, totalPages: int, p: int)
    requires 1 <= currentPage <= totalPages
    requires 1 <= p <= totalPages && currentPage - Delta <= p <= currentPage + Delta
    ensures Page(p) in VisiblePages(currentPage, totalPages)
  {
    var v := VisiblePages(currentPage, totalPages);
    var lo, hi := Max(2, currentPage - Delta), Min(totalPages - 1, currentPage + Delta);
    var lead := if currentPage - Delta > 2 then [Page(1), Dots] else [Page(1)];
    var w := Window(lo, hi);
    var tail := if currentPage + Delta < totalPages - 1 then [Dots, Page(totalPages)]
      else if totalPages > 1 then [Page(totalPages)] else [];
    assert v == lead + w + tail;
    if p == 1 {
      assert v[0] == Page(1);
    } else if p == totalPages {
      assert v[|v| - 1] == Page(p);
    } else {
      assert w[p - lo] == Page(p);
      assert v[|lead| + p - lo] == Page(p);
    }
  }

  // ---------------------------------------------------------------------
  // Rendering

  /** `totalPages > 1 ? getVisiblePages() : []`. */
  function ShownPages(currentPage: int, totalPages: int): (v: seq<PageEntry>)
    ensures totalPages <= 1 <==> v == []
  {
    if totalPages > 1 then VisiblePages(currentPage, totalPages) else []
  }

  /** The component renders nothing when there is at most one page and no
      more to load. */
  predicate Renders(totalPages: int, hasMore: bool) {
    !(totalPages <= 1 && !hasMore)
  }

  /** The guards: "previous" from page 2 on; without more to load, "next"
      only before the last page; nothing is drawn when there are no page
      buttons and nothing more to load. */
  lemma NavigationGuards(currentPage: int, totalPages: int, hasMore: bool)
    ensures CanGoPrevious(currentPage) <==> currentPage >= 2
    ensures !hasMore ==> (CanGoNext(hasMore, currentPage, totalPages) <==> currentPage < totalPages)
    ensures !Renders(totalPages, hasMore) ==> ShownPages(currentPage, totalPages) == [] && !hasMore
  {
  }

  /** The item range shown while there are items: `(current - 1) * per + 1`
      to `min(current * per, total)`. */
  function ItemRange(currentPage: int, itemsPerPage: int, totalItems: int): (range: (int, int))
  {
    ((currentPage - 1) * itemsPerPage + 1, Min(currentPage * itemsPerPage, totalItems))
  }

  lemma MulMono(a: int, b: int, c: int)
    requires a <= b && c >= 0
    ensures a * c <= b * c
  {
  }

  /** On a page that exists, the range lies within the items and spans at
      most one page; on the last page it ends at the last item. */
  lemma ItemRangeWithinItems(currentPage: int, itemsPerPage: int, totalItems: nat)
    requires itemsPerPage > 0 && totalItems > 0
    requires 1 <= currentPage <= TotalPages(totalItems, itemsPerPage)
    ensures var (first, last) := ItemRange(currentPage, itemsPerPage, totalItems);
      && 1 <= first <= last <= totalItems
      && last - first + 1 <= itemsPerPage
      && (currentPage == TotalPages(totalItems, itemsPerPage) ==> last == totalItems)
  {
    var pages := TotalPages(totalItems, itemsPerPage);
    MulMono(currentPage - 1, pages - 1, itemsPerPage);
    MulMono(0, currentPage - 1, itemsPerPage);
    assert currentPage * itemsPerPage == (currentPage - 1) * itemsPerPage + itemsPerPage;
  }
}
