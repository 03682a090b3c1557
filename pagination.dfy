/** The pagination control of src/shared/components/Pagination.tsx: which
    page numbers it shows and what the Prev and Next buttons do. Pages are
    0-based; captions are 1-based. */
module Pagination {
  import opened Common

  const MaxVisible := 5

  function Max(a: int, b: int): int { if a >= b then a else b }
  function Min(a: int, b: int): int { if a <= b then a else b }

  /** `Array.from({ length: end - start }, (_, i) => start + i)`: a negative
      length gives the empty array. */
  function Range(start: int, end: int): (r: seq<int>)
    ensures |r| == Max(0, end - start)
    ensures forall i :: 0 <= i < |r| ==> r[i] == start + i
    decreases end - start
  {
    if end <= start then [] else [start] + Range(start + 1, end)
  }

  /** `getPageNumbers`; it only runs once the component knows `totalPages > 1`. */
  function PageNumbers(currentPage: int, totalPages: int): seq<int>
    requires totalPages > 1
  {
    var start := Max(0, currentPage - MaxVisible / 2);
    var end := Min(totalPages, start + MaxVisible);
    var start' := if end - start < MaxVisible then Max(0, end - MaxVisible) else start;
    Range(start', end)
  }

  /** The first page number shown. */
  function WindowStart(currentPage: int, totalPages: int): int {
    Max(0, Min(currentPage - 2, totalPages - MaxVisible))
  }

  /** The window holds `min(totalPages, 5)` consecutive ascending pages, all
      valid, starting at `max(0, min(currentPage - 2, totalPages - 5))`; it
      contains the current page whenever that page exists. */
  lemma PageNumbersWindow(currentPage: int, totalPages: int)
    requires totalPages > 1
    ensures var r := PageNumbers(currentPage, totalPages);
      && |r| == Min(totalPages, MaxVisible)
      && (forall i :: 0 <= i < |r| ==> r[i] == WindowStart(currentPage, totalPages) + i)
      && (forall i :: 0 <= i < |r| ==> 0 <= r[i] < totalPages)
      && (0 <= currentPage < totalPages ==> currentPage in r)
  {
    var r := PageNumbers(currentPage, totalPages);
    var s := WindowStart(currentPage, totalPages);
    if 0 <= currentPage < totalPages {
      assert r[currentPage - s] == currentPage;
    }
  }

  datatype PageButton = PageButton(page: int, caption: int, active: bool)

  /** What the component renders when it renders anything. */
  datatype View = View(
    prevDisabled: bool, prevTarget: int,
    pages: seq<PageButton>,
    nextDisabled: bool, nextTarget: int)

  /** The component: nothing for one page or fewer. */
  function Render(currentPage: int, totalPages: int): (v: Option<View>)
  {
    if totalPages <= 1 then None
    else
      var nums := PageNumbers(currentPage, totalPages);
      Some(View(
        currentPage == 0, currentPage - 1,
        seq(|nums|, i requires 0 <= i < |nums| => PageButton(nums[i], nums[i] + 1, nums[i] == currentPage)),
        currentPage >= totalPages - 1, currentPage + 1))
  }

  /** Nothing is rendered iff there is at most one page; otherwise Prev is
      disabled exactly on the first page and Next exactly from the last page
      on, they ask for the neighbouring pages, and exactly one shown button
      is active when the current page exists. */
  lemma RenderSpec(currentPage: int, totalPages: int)
    ensures Render(currentPage, totalPages).None? <==> totalPages <= 1
    ensures totalPages > 1 ==>
      var v := Render(currentPage, totalPages).value;
      && (v.prevDisabled <==> currentPage == 0)
      && (v.nextDisabled <==> currentPage >= totalPages - 1)
      && v.prevTarget == currentPage - 1 && v.nextTarget == currentPage + 1
      && |v.pages| == Min(totalPages, MaxVisible)
      && (forall i :: 0 <= i < |v.pages| ==> v.pages[i].caption == v.pages[i].page + 1)
      && (forall i :: 0 <= i < |v.pages| ==> (v.pages[i].active <==> v.pages[i].page == currentPage))
      && (0 <= currentPage < totalPages ==> exists i :: 0 <= i < |v.pages| && v.pages[i].active)
  {
    if totalPages > 1 {
      PageNumbersWindow(currentPage, totalPages);
      var v := Render(currentPage, totalPages).value;
      if 0 <= currentPage < totalPages {
        var k := currentPage - WindowStart(currentPage, totalPages);
        assert v.pages[k].active;
      }
    }
  }
}
