/** The client-side category view (app/categoria/components/CategoryContent.tsx)
    with the defaults of its data hook (app/categoria/hooks/useServices.ts). */
module CategoryContent {

  import opened Wrappers
  import opened UrlParams
  import opened JsNumbers
  import opened Text
  import Listing
  import Paging
  import Pagination

  datatype View =
    | RedirectHome
    | Loading(title: string)
    | Content(title: string, services: seq<Listing.Item>, pagination: Option<Pagination.Bar>)

  /** `data?.services ?? []` and `data?.total ?? 0`. */
  function Fetched(data: Option<Listing.Page>): Listing.Page {
    data.GetOr(Listing.Page([], 0))
  }

  function Render(searchParams: Params, data: Option<Listing.Page>, isLoading: bool): View {
    if !Has(searchParams, "categoria") then RedirectHome
    else
      var title := "Servicios en " + Capitalize(searchParams["categoria"]);
      var currentPage := Paging.CurrentPage(Get(searchParams, "page"));
      var page := Fetched(data);
      var totalPages := Paging.TotalPages(page.total);
      if isLoading then Loading(title)
      else Content(title, page.services,
                   if totalPages > 1 then Some(Pagination.Render(currentPage, totalPages)) else None)
  }

  /** Without a category the view redirects home and shows nothing; with one,
      the title is "Servicios en " and the slug with its first character upper-cased, and
      pagination appears only when the total, 0 until data arrives, needs more
      than one page. */
  lemma RenderShape(searchParams: Params, data: Option<Listing.Page>, isLoading: bool)
    ensures Render(searchParams, data, isLoading).RedirectHome? <==> !Has(searchParams, "categoria")
    ensures !Render(searchParams, data, isLoading).RedirectHome? ==>
              var t := Render(searchParams, data, isLoading).title;
              var c := searchParams["categoria"];
              |t| == |"Servicios en "| + |c| && t[..|"Servicios en "|] == "Servicios en " &&
              t[|"Servicios en "|] == UpperChar(c[0]) &&
              t[|"Servicios en "| + 1..] == c[1..]
    ensures Render(searchParams, data, isLoading).Content? ==>
              (Render(searchParams, data, isLoading).pagination.Some? <==>
                 data.Some? && data.value.total > Paging.ITEMS_PER_PAGE)
  {
    Paging.ShowPaginationIff(Fetched(data).total);
  }

  /** `handlePageChange(page)`: the same parameters with `page` set, on `/categoria`. */
  method HandlePageChange(searchParams: Params, page: int) returns (nav: Location)
    ensures nav.path == "/categoria"
    ensures "page" in nav.query && Number(nav.query["page"]) == Some(page)
    ensures forall k :: k != "page" ==>
              (k in nav.query <==> k in searchParams) && (k in searchParams ==> nav.query[k] == searchParams[k])
  {
    var params := searchParams;
    params := params["page" := IntToString(page)];
    NumberOfIntToString(page);
    nav := Location("/categoria", params);
  }
}
