/** The category page shell with pre-fetched data
    (app/categoria/components/CategoryPage.tsx). */
module CategoryPage {

  import opened Wrappers
  import opened UrlParams
  import Listing
  import Paging

  datatype View = View(categoria: string, services: seq<Listing.Item>, pagination: Option<(int, nat)>)

  function Render(categoria: string, initialData: Listing.Page, searchParams: Params): View {
    var currentPage := Paging.CurrentPage(Get(searchParams, "page"));
    var totalPages := Paging.TotalPages(initialData.total);
    View(categoria, initialData.services, if totalPages > 1 then Some((currentPage, totalPages)) else None)
  }

  /** The services are shown in the given order, and pagination is rendered
      exactly when the total needs more than one page of 12. */
  lemma RenderShape(categoria: string, initialData: Listing.Page, searchParams: Params)
    ensures Render(categoria, initialData, searchParams).services == initialData.services
    ensures Render(categoria, initialData, searchParams).pagination.Some? <==> initialData.total > Paging.ITEMS_PER_PAGE
    ensures Render(categoria, initialData, searchParams).pagination.Some? ==>
              Render(categoria, initialData, searchParams).pagination.value ==
                (Paging.CurrentPage(Get(searchParams, "page")), Paging.TotalPages(initialData.total))
  {
    Paging.ShowPaginationIff(initialData.total);
  }
}
