/** The page arithmetic shared by the category views (app/categoria/components):
    the page size, the current page read from the query, the number of pages,
    the page buttons and when the previous and next buttons are disabled. */
module Paging {

  import opened Wrappers
  import opened JsNumbers

  const ITEMS_PER_PAGE: nat := 12

  /** `Number(page) || 1`: not clamped, so a negative page stays negative. */
  function CurrentPage(page: Option<string>): int {
    OrOne(NumberOf(page))
  }

  /** The current page is the number given, unless it is absent, 0 or not a
      number, in which case it is 1. */
  lemma CurrentPageValue(page: Option<string>)
    ensures page.None? ==> CurrentPage(page) == 1
    ensures page.Some? && Number(page.value).Some? && Number(page.value).value != 0 ==>
              CurrentPage(page) == Number(page.value).value
    ensures page.Some? && (Number(page.value).None? || Number(page.value) == Some(0)) ==> CurrentPage(page) == 1
    ensures forall n: int :: n != 0 ==> CurrentPage(Some(IntToString(n))) == n
  {
    forall n: int | n != 0 ensures CurrentPage(Some(IntToString(n))) == n {
      NumberOfIntToString(n);
    }
  }

  /** `Math.ceil(total / 12)`. */
  function TotalPages(total: nat): nat {
    (total + ITEMS_PER_PAGE - 1) / ITEMS_PER_PAGE
  }

  /** The number of pages is the least number of 12-item pages that hold the
      total; it is 0 exactly when the total is 0. */
  lemma TotalPagesIsCeiling(total: nat)
    ensures TotalPages(total) * ITEMS_PER_PAGE >= total
    ensures TotalPages(total) > 0 ==> (TotalPages(total) - 1) * ITEMS_PER_PAGE < total
    ensures TotalPages(total) == 0 <==> total == 0
  {
  }

  /** `Array.from({ length: totalPages }, (_, i) => i + 1)`. */
  function PageButtons(totalPages: nat): seq<int> {
    seq(totalPages, i => i + 1)
  }

  /** The buttons are the pages 1..totalPages, each once, in ascending order. */
  lemma PageButtonsAscending(totalPages: nat)
    ensures |PageButtons(totalPages)| == totalPages
    ensures forall k :: k in PageButtons(totalPages) <==> 1 <= k <= totalPages
    ensures forall i, j :: 0 <= i < j < totalPages ==> PageButtons(totalPages)[i] < PageButtons(totalPages)[j]
  {
    var r := PageButtons(totalPages);
    forall k | 1 <= k <= totalPages ensures k in r {
      assert r[k - 1] == k;
    }
  }

  predicate PrevDisabled(currentPage: int) {
    currentPage <= 1
  }

  predicate NextDisabled(currentPage: int, totalPages: nat) {
    currentPage >= totalPages
  }

  /** Controls appear only when there is more than one page. */
  predicate ShowPagination(totalPages: nat) {
    totalPages > 1
  }

  /** Pagination appears exactly when there are more than 12 items. */
  lemma ShowPaginationIff(total: nat)
    ensures ShowPagination(TotalPages(total)) <==> total > ITEMS_PER_PAGE
  {
  }

  /** From a page in range, an enabled previous or next button leads to a page
      that is also in range. */
  lemma NeighboursInRange(currentPage: int, totalPages: nat)
    requires 1 <= currentPage <= totalPages
    ensures !PrevDisabled(currentPage) ==> currentPage - 1 in PageButtons(totalPages)
    ensures !NextDisabled(currentPage, totalPages) ==> currentPage + 1 in PageButtons(totalPages)
  {
    PageButtonsAscending(totalPages);
  }

  /** Twenty-five items make three pages. */
  lemma TwentyFiveItems()
    ensures TotalPages(25) == 3 && ShowPagination(3)
  {
  }
}
