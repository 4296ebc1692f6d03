/** The search page (app/search/page.tsx): the two index requests made for a
    query, the shaping of their hits into category and service cards, the
    highlight rewrite, and the choice between the prompt, the results and
    the "no results" panel. The search index itself is a parameter: a
    function from a query string to the hits it matches, in rank order. */
module Search {

  import opened Wrappers
  import opened Text
  import Consts
  import ServiceClient

  datatype Request = Request(indexName: string, query: string, hitsPerPage: nat)

  /** A hit of `services_index`; the `hl` fields are `_highlightResult` values. */
  datatype ServiceHit = ServiceHit(
    id: string,
    titulo: string,
    descripcion: Option<string>,
    precio: Option<int>,
    moneda: Option<string>,
    imagenes: seq<string>,
    categoryName: string,
    hlTitulo: Option<string>,
    hlDescripcion: Option<string>,
    hlCategoryName: Option<string>)

  /** A hit of `categories_index`. */
  datatype CategoryHit = CategoryHit(id: string, name: string, slug: string, icon: string, hlName: Option<string>)

  datatype Results = Results(services: seq<ServiceHit>, categories: seq<CategoryHit>)

  const SERVICE_HITS: nat := 20
  const CATEGORY_HITS: nat := 5

  /** The requests `searchResults` sends: none for an empty query, otherwise one
      to each index with the trimmed query. */
  function Requests(query: string): (r: seq<Request>)
    ensures query == "" <==> r == []
    ensures r != [] ==>
              |r| == 2 &&
              r[0] == Request("services_index", Trim(query), SERVICE_HITS) &&
              r[1] == Request("categories_index", Trim(query), CATEGORY_HITS)
  {
    if query == "" then []
    else [Request("services_index", Trim(query), SERVICE_HITS), Request("categories_index", Trim(query), CATEGORY_HITS)]
  }

  /** A query made only of white space is still sent, as the empty string. */
  lemma BlankQueryIsSent(query: string)
    requires query != "" && AllWhitespace(query)
    ensures |Requests(query)| == 2
    ensures Requests(query)[0].query == "" && Requests(query)[1].query == ""
  {
    TrimEmptyIff(query);
  }

  /** The first `n` elements, or all of them. */
  function Take<T>(s: seq<T>, n: nat): seq<T> {
    if |s| <= n then s else s[..n]
  }

  /** `searchResults(query)` against the two indexes. */
  function SearchResults(query: string, services: string -> seq<ServiceHit>, categories: string -> seq<CategoryHit>): (r: Results)
    ensures query == "" ==> r == Results([], [])
    ensures |r.services| <= SERVICE_HITS && |r.categories| <= CATEGORY_HITS
    ensures query != "" ==>
              r.services <= services(Trim(query)) && r.categories <= categories(Trim(query)) &&
              (|r.services| == SERVICE_HITS || r.services == services(Trim(query))) &&
              (|r.categories| == CATEGORY_HITS || r.categories == categories(Trim(query)))
  {
    if query == "" then Results([], [])
    else Results(Take(services(Trim(query)), SERVICE_HITS), Take(categories(Trim(query)), CATEGORY_HITS))
  }

  predicate NoResults(r: Results) {
    |r.services| == 0 && |r.categories| == 0
  }

  const EM := "<em>"
  const STYLED_EM := "<em class=\"text-yellow-400 not-italic\">"

  /** `value.replace(/<em>/g, STYLED_EM)`. */
  function StyleEm(s: string): string
    decreases |s|
  {
    if |s| >= 4 && s[..4] == EM then STYLED_EM + StyleEm(s[4..])
    else if s == [] then []
    else [s[0]] + StyleEm(s[1..])
  }

  /** Text without "<em>" is left as it is. */
  lemma {:induction false} StyleEmIdentity(s: string)
    requires !Contains(s, EM)
    ensures StyleEm(s) == s
    decreases |s|
  {
    if s != [] {
      assert !OccursAt(s, EM, 0);
      assert !Contains(s[1..], EM);
      StyleEmIdentity(s[1..]);
    }
  }

  /** A prefix without '<' passes through unchanged. */
  lemma {:induction false} StyleEmPrefix(a: string, t: string)
    requires '<' !in a
    ensures StyleEm(a + t) == a + StyleEm(t)
    decreases |a|
  {
    if a != [] {
      if |a + t| >= 4 {
        assert (a + t)[..4][0] == a[0] != EM[0];
      }
      assert (a + t)[1..] == a[1..] + t;
      assert StyleEm(a + t) == [a[0]] + StyleEm(a[1..] + t);
      StyleEmPrefix(a[1..], t);
      assert a == [a[0]] + a[1..];
    } else {
      assert a + t == t;
    }
  }

  /** Between the tags every other character is kept: text made of pieces free
      of '<' joined by "<em>" comes out as the same pieces joined by the
      styled tag. */
  lemma {:induction false} StyleEmJoin(pieces: seq<string>)
    requires forall i :: 0 <= i < |pieces| ==> '<' !in pieces[i]
    ensures StyleEm(Join(pieces, EM)) == Join(pieces, STYLED_EM)
  {
    if |pieces| == 1 {
      StyleEmPrefix(pieces[0], "");
      assert pieces[0] + "" == pieces[0];
    } else if |pieces| > 1 {
      var rest := Join(pieces[1..], EM);
      assert Join(pieces, EM) == pieces[0] + (EM + rest);
      StyleEmJoin(pieces[1..]);
      StyleEmPrefix(pieces[0], EM + rest);
      StyleEmTag(rest);
      assert Join(pieces, STYLED_EM) == pieces[0] + (STYLED_EM + Join(pieces[1..], STYLED_EM));
    }
  }

  /** A tag at the front is rewritten and the rest follows. */
  lemma StyleEmTag(rest: string)
    ensures StyleEm(EM + rest) == STYLED_EM + StyleEm(rest)
  {
    assert (EM + rest)[..4] == EM && (EM + rest)[4..] == rest;
  }

  /** The highlight value, rewritten, when the hit has one; the raw field
      otherwise. */
  function Highlighted(raw: string, hl: Option<string>): string {
    if hl.Some? then StyleEm(hl.value) else raw
  }

  datatype CategoryCard = CategoryCard(href: string, icon: Option<Consts.Icon>, caption: string)

  datatype ServiceCard = ServiceCard(
    href: string,
    image: string,
    category: string,
    titulo: string,
    descripcion: Option<string>,
    price: ServiceClient.PriceView)

  function CategoryCardOf(c: CategoryHit): CategoryCard {
    CategoryCard("/categoria/" + c.slug, Consts.IconMap(c.icon), Highlighted(c.name, c.hlName))
  }

  function ServiceCardOf(s: ServiceHit): ServiceCard {
    ServiceCard(
      "/servicio/" + s.id,
      Consts.FirstImageOr(s.imagenes, Consts.NO_IMAGE),
      Highlighted(s.categoryName, s.hlCategoryName),
      Highlighted(s.titulo, s.hlTitulo),
      if s.hlDescripcion.Some? then Some(StyleEm(s.hlDescripcion.value)) else s.descripcion,
      ServiceClient.PriceLine(s.precio, s.moneda))
  }

  datatype View =
    | Prompt
    | Found(heading: Option<string>, categories: seq<CategoryCard>, services: seq<ServiceCard>, noResultsPanel: bool)

  /** The page for the `q` parameter. */
  function Render(q: Option<string>, services: string -> seq<ServiceHit>, categories: string -> seq<CategoryHit>): View {
    var query := q.GetOr("");
    var r := SearchResults(query, services, categories);
    if query == "" then Prompt
    else
      Found(
        if NoResults(r) then None else Some(query),
        seq(|r.categories|, i requires 0 <= i < |r.categories| => CategoryCardOf(r.categories[i])),
        seq(|r.services|, i requires 0 <= i < |r.services| => ServiceCardOf(r.services[i])),
        NoResults(r))
  }

  /** An absent or empty `q` shows the prompt; otherwise the heading names the
      query exactly when some hit came back, the "no results" panel is shown
      exactly when none did, and the cards follow the hits in order. */
  lemma RenderSpec(q: Option<string>, services: string -> seq<ServiceHit>, categories: string -> seq<CategoryHit>)
    ensures Render(q, services, categories).Prompt? <==> q.None? || q.value == ""
    ensures Render(q, services, categories).Found? ==>
              var v := Render(q, services, categories);
              var r := SearchResults(q.value, services, categories);
              (v.heading.Some? <==> !NoResults(r)) && (v.heading.Some? ==> v.heading.value == q.value) &&
              v.noResultsPanel == NoResults(r) &&
              |v.categories| == |r.categories| && |v.services| == |r.services| &&
              (forall i :: 0 <= i < |r.services| ==>
                 v.services[i].href == "/servicio/" + r.services[i].id &&
                 v.services[i].image == Consts.FirstImageOr(r.services[i].imagenes, Consts.NO_IMAGE))
  {
  }

  /** Each card field shows the rewritten highlight when there is one and the
      raw field otherwise; an unknown icon name shows no icon; a service
      without images shows the fallback image; a missing price shows
      nothing, a price of 0 the bare text "0", and any other price the price
      line with its currency. */
  lemma CardFields(c: CategoryHit, s: ServiceHit)
    ensures c.hlName.None? ==> CategoryCardOf(c).caption == c.name
    ensures c.hlName.Some? && !Contains(c.hlName.value, EM) ==> CategoryCardOf(c).caption == c.hlName.value
    ensures c.icon !in Consts.IconNames ==> CategoryCardOf(c).icon.None?
    ensures s.hlTitulo.None? ==> ServiceCardOf(s).titulo == s.titulo
    ensures s.imagenes == [] ==> ServiceCardOf(s).image == Consts.NO_IMAGE
    ensures ServiceCardOf(s).price.NoPrice? <==> s.precio.None?
    ensures ServiceCardOf(s).price.BareZero? <==> s.precio == Some(0)
    ensures ServiceCardOf(s).price.PriceShown? <==> s.precio.Some? && s.precio.value != 0
    ensures ServiceCardOf(s).price.PriceShown? ==>
              ServiceCardOf(s).price == ServiceClient.PriceShown(s.precio.value, s.moneda)
  {
    if c.hlName.Some? && !Contains(c.hlName.value, EM) {
      StyleEmIdentity(c.hlName.value);
    }
  }
}
