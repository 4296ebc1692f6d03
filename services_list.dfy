/** The server-rendered list of a category's services
    (app/categoria/components/ServicesList.tsx). */
module ServicesList {

  import opened Wrappers
  import opened UrlParams
  import Listing
  import Paging

  /** `new URLSearchParams({ categoria, ...searchParams })`. */
  function QueryOf(categoria: string, searchParams: Params): (r: Params)
    ensures "categoria" in r
    ensures r["categoria"] == if "categoria" in searchParams then searchParams["categoria"] else categoria
    ensures forall k :: k != "categoria" ==> (k in r <==> k in searchParams) && (k in searchParams ==> r[k] == searchParams[k])
  {
    map["categoria" := categoria] + searchParams
  }

  /** What the list shows: the empty state, or the cards with an optional pagination bar. */
  datatype View =
    | EmptyState
    | Cards(services: seq<Listing.Item>, pagination: Option<(int, nat, Params)>)

  function ViewOf(searchParams: Params, page: Listing.Page): View {
    var currentPage := Paging.CurrentPage(Get(searchParams, "page"));
    var totalPages := Paging.TotalPages(page.total);
    if |page.services| == 0 then EmptyState
    else Cards(page.services, if totalPages > 1 then Some((currentPage, totalPages, searchParams)) else None)
  }

  /** `ServicesList`: fetch with the merged query, then choose the view. A
      failed fetch fails the render. */
  function Render(categoria: string, searchParams: Params, categories: map<string, string>,
                  store: seq<Listing.Service>, dbOk: bool): Result<View>
  {
    var page :- Listing.GetServices(QueryOf(categoria, searchParams), categories, store, dbOk);
    Success(ViewOf(searchParams, page))
  }

  /** The empty state appears exactly when no service is returned; otherwise
      the services are shown in the returned order, with pagination exactly
      when there is more than one page. */
  lemma ViewOfShape(searchParams: Params, page: Listing.Page)
    ensures ViewOf(searchParams, page).EmptyState? <==> page.services == []
    ensures ViewOf(searchParams, page).Cards? ==> ViewOf(searchParams, page).services == page.services
    ensures ViewOf(searchParams, page).Cards? ==>
              (ViewOf(searchParams, page).pagination.Some? <==> Paging.TotalPages(page.total) > 1)
    ensures ViewOf(searchParams, page).Cards? && ViewOf(searchParams, page).pagination.Some? ==>
              ViewOf(searchParams, page).pagination.value.0 == Paging.CurrentPage(Get(searchParams, "page"))
  {
  }

  /** With a non-empty route slug that the URL does not override, the render
      fails only on a non-numeric price bound or a failing database query. */
  lemma RenderFailsOnlyOnBadPrice(categoria: string, searchParams: Params, categories: map<string, string>,
                                  store: seq<Listing.Service>, dbOk: bool)
    requires categoria != "" && "categoria" !in searchParams
    ensures Render(categoria, searchParams, categories, store, dbOk).Failure? <==>
              !Listing.PricesParse(QueryOf(categoria, searchParams)) || !dbOk
  {
    Listing.GetServicesFails(QueryOf(categoria, searchParams), categories, store, dbOk);
  }
}
