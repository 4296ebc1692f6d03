/** The pagination bar of a category listing
    (app/categoria/components/Pagination.tsx). */
module Pagination {

  import opened Wrappers
  import opened UrlParams
  import opened JsNumbers
  import Paging

  /** The bar's buttons: previous, one per page, next. */
  datatype Bar = Bar(pages: seq<int>, current: int, prevDisabled: bool, nextDisabled: bool)

  function Render(currentPage: int, totalPages: nat): (r: Bar)
    ensures r.prevDisabled <==> currentPage <= 1
    ensures r.nextDisabled <==> currentPage >= totalPages
    ensures forall k :: k in r.pages <==> 1 <= k <= totalPages
    ensures |r.pages| == totalPages && forall i, j :: 0 <= i < j < |r.pages| ==> r.pages[i] < r.pages[j]
  {
    Paging.PageButtonsAscending(totalPages);
    Bar(Paging.PageButtons(totalPages), currentPage,
        Paging.PrevDisabled(currentPage), Paging.NextDisabled(currentPage, totalPages))
  }

  /** `handlePageChange(page)`: copy the parameters, set `page`, and go to the
      path of the `categoria` parameter ("null" when there is none). */
  method HandlePageChange(searchParams: Params, page: int) returns (nav: Location)
    ensures "page" in nav.query && Number(nav.query["page"]) == Some(page)
    ensures forall k :: k != "page" ==>
              (k in nav.query <==> k in searchParams) && (k in searchParams ==> nav.query[k] == searchParams[k])
    ensures "categoria" in searchParams ==> nav.path == "/categoria/" + searchParams["categoria"]
    ensures "categoria" !in searchParams ==> nav.path == "/categoria/null"
  {
    var params := searchParams;
    params := params["page" := IntToString(page)];
    NumberOfIntToString(page);
    assert |"categoria"| != |"page"|;
    // A template literal prints a missing parameter as "null".
    var path := if "categoria" in params then "/categoria/" + params["categoria"] else "/categoria/null";
    nav := Location(path, params);
  }
}
