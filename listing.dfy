/** The server action `getServices` (app/categoria/actions.ts): one page of the
    services of a category, narrowed by optional query parameters, together
    with the number of all matching services. The database is a sequence of
    rows and a map from category slug to category id; both queries of the
    action read the same snapshot. */
module Listing {

  import opened Wrappers
  import opened UrlParams
  import opened JsNumbers
  import Seqs
  import opened Text
  import Paging

  const ITEMS_PER_PAGE := Paging.ITEMS_PER_PAGE
  const FETCH_ERROR := "Failed to fetch services"

  /** A service row with the columns the listing selects, plus its category reference. */
  datatype Service = Service(
    id: string,
    categoryId: string,
    titulo: string,
    descripcion: Option<string>,
    precio: Option<int>,
    moneda: Option<string>,
    departamento: Option<string>,
    ciudad: Option<string>,
    telefonoPrincipal: Option<string>,
    whatsapp: bool,
    imagenes: seq<string>,
    email: string)

  /** A returned row: the selected columns and the two derived fields. */
  datatype Item = Item(row: Service, tieneImagenes: bool, imagen: Option<string>)

  datatype Page = Page(services: seq<Item>, total: nat)

  /** An inclusive price range; a missing bound is unconstrained. */
  datatype Range = Range(gte: Option<int>, lte: Option<int>)

  /** The `where` clause: every present part must hold. */
  datatype Where = Where(
    categoryIds: seq<string>,
    departamento: Option<string>,
    ciudad: Option<string>,
    moneda: Option<string>,
    precio: Option<Range>)

  /** A comparison on a nullable column is false on `null`. */
  predicate InRange(r: Range, precio: Option<int>) {
    precio.Some? &&
    (r.gte.Some? ==> precio.value >= r.gte.value) &&
    (r.lte.Some? ==> precio.value <= r.lte.value)
  }

  predicate Matches(w: Where, s: Service) {
    s.categoryId in w.categoryIds &&
    (w.departamento.Some? ==> s.departamento == w.departamento) &&
    (w.ciudad.Some? ==> s.ciudad == w.ciudad) &&
    (w.moneda.Some? ==> s.moneda == w.moneda) &&
    (w.precio.Some? ==> InRange(w.precio.value, s.precio))
  }

  /** The exact-match part for `key`: present when the parameter is non-empty
      and is not the "no filter" sentinel. */
  function Refinement(p: Params, key: string, sentinel: Option<string>): Option<string> {
    if Has(p, key) && Some(p[key]) != sentinel then Some(p[key]) else None
  }

  /** Every non-empty price bound reads as a number. */
  predicate PricesParse(p: Params) {
    (Has(p, "precioMin") ==> Number(p["precioMin"]).Some?) &&
    (Has(p, "precioMax") ==> Number(p["precioMax"]).Some?)
  }

  /** `Number(bound)` for a non-empty bound; a NaN bound makes the query fail. */
  function Bound(p: Params, key: string): Result<Option<int>> {
    if !Has(p, key) then Success(None)
    else match Number(p[key])
      case None => Failure("Invalid price bound")
      case Some(n) => Success(Some(n))
  }

  function PriceRange(p: Params): Result<Option<Range>> {
    var lo :- Bound(p, "precioMin");
    var hi :- Bound(p, "precioMax");
    if Has(p, "precioMin") || Has(p, "precioMax") then Success(Some(Range(lo, hi))) else Success(None)
  }

  /** The ids of the categories with that slug: one or none. */
  function CategoryIds(slug: string, categories: map<string, string>): seq<string> {
    if slug in categories then [categories[slug]] else []
  }

  /** The `where` clause of the two queries. */
  function BuildWhere(p: Params, categories: map<string, string>): (r: Result<Where>)
    ensures r.Failure? <==> !Has(p, "categoria") || !PricesParse(p)
  {
    if !Has(p, "categoria") then Failure("Category is required")
    else
      var precio :- PriceRange(p);
      Success(Where(
        CategoryIds(p["categoria"], categories),
        Refinement(p, "departamento", Some("todos")),
        Refinement(p, "ciudad", Some("todas")),
        Refinement(p, "moneda", None),
        precio))
  }

  /** `Math.max(1, Number(params.get("page")) || 1)`. */
  function EffectivePage(p: Params): (r: int)
    ensures r >= 1
  {
    var n := OrOne(NumberOf(Get(p, "page")));
    if n > 1 then n else 1
  }

  /** `take` rows after skipping `skip`: what `findMany` returns from the matching rows. */
  function Window<T>(s: seq<T>, skip: nat, take: nat): seq<T> {
    if skip >= |s| then [] else if skip + take >= |s| then s[skip..] else s[skip..skip + take]
  }

  lemma WindowSpec<T>(s: seq<T>, skip: nat, take: nat)
    ensures |Window(s, skip, take)| <= take
    ensures skip >= |s| ==> Window(s, skip, take) == []
    ensures forall i :: 0 <= i < |Window(s, skip, take)| ==> skip + i < |s| && Window(s, skip, take)[i] == s[skip + i]
  {
  }

  function ToItem(s: Service): Item {
    Item(s, |s.imagenes| > 0, if |s.imagenes| > 0 && s.imagenes[0] != "" then Some(s.imagenes[0]) else None)
  }

  /** The services matching `w`, in store order. */
  function Matching(w: Where, store: seq<Service>): seq<Service> {
    Seqs.Filter(s => Matches(w, s), store)
  }

  function Skip(p: Params): nat {
    (EffectivePage(p) - 1) * ITEMS_PER_PAGE
  }

  /** `getServices(searchParams)`; every error is reported as "Failed to fetch services".
      `dbOk` is the outcome of the database queries (the category lookup, the
      page of rows and the count): any of them throwing is caught the same way. */
  function GetServices(p: Params, categories: map<string, string>, store: seq<Service>, dbOk: bool): Result<Page> {
    match BuildWhere(p, categories)
    case Failure(_) => Failure(FETCH_ERROR)
    case Success(w) =>
      if !dbOk then Failure(FETCH_ERROR)
      else
        var matching := Matching(w, store);
        var rows := Window(matching, Skip(p), ITEMS_PER_PAGE);
        Success(Page(seq(|rows|, i requires 0 <= i < |rows| => ToItem(rows[i])), |matching|))
  }

  /** The constraints a service must meet, read off the parameters one by one. */
  ghost predicate Admits(p: Params, categories: map<string, string>, s: Service)
    requires Has(p, "categoria") && PricesParse(p)
  {
    p["categoria"] in categories && s.categoryId == categories[p["categoria"]] &&
    (Has(p, "departamento") && p["departamento"] != "todos" ==> s.departamento == Some(p["departamento"])) &&
    (Has(p, "ciudad") && p["ciudad"] != "todas" ==> s.ciudad == Some(p["ciudad"])) &&
    (Has(p, "moneda") ==> s.moneda == Some(p["moneda"])) &&
    (Has(p, "precioMin") ==> s.precio.Some? && s.precio.value >= Number(p["precioMin"]).value) &&
    (Has(p, "precioMax") ==> s.precio.Some? && s.precio.value <= Number(p["precioMax"]).value)
  }

  /** The action fails exactly when `categoria` is missing or empty, a price
      bound is not a number, or a database query throws, and then always with
      the same message. */
  lemma GetServicesFails(p: Params, categories: map<string, string>, store: seq<Service>, dbOk: bool)
    ensures GetServices(p, categories, store, dbOk).Failure? <==> !Has(p, "categoria") || !PricesParse(p) || !dbOk
    ensures GetServices(p, categories, store, dbOk).Failure? ==> GetServices(p, categories, store, dbOk).error == FETCH_ERROR
  {
  }

  /** The `where` clause admits a service exactly when each parameter's constraint holds:
      the category, `departamento` unless "todos", `ciudad` unless "todas",
      `moneda` whenever given, and each given price bound inclusively. */
  lemma MatchesAdmits(p: Params, categories: map<string, string>, s: Service)
    requires Has(p, "categoria") && PricesParse(p)
    ensures Matches(BuildWhere(p, categories).value, s) <==> Admits(p, categories, s)
  {
  }

  /** A slug without a category matches nothing, and is not an error. */
  lemma UnknownCategoryIsEmpty(p: Params, categories: map<string, string>, store: seq<Service>, dbOk: bool)
    requires Has(p, "categoria") && p["categoria"] !in categories && PricesParse(p)
    ensures GetServices(p, categories, store, dbOk) == if dbOk then Success(Page([], 0)) else Failure(FETCH_ERROR)
  {
    var w := BuildWhere(p, categories).value;
    assert w.categoryIds == [];
    Seqs.FilterNone(s => Matches(w, s), store);
    assert Matching(w, store) == [];
    assert Window(Matching(w, store), Skip(p), ITEMS_PER_PAGE) == [];
    if dbOk {
      assert GetServices(p, categories, store, dbOk).value.total == 0;
      assert GetServices(p, categories, store, dbOk).value.services == [];
    }
  }

  /** "todos" as `departamento` and "todas" as `ciudad` act as if the parameter
      were absent, and so does an empty value. */
  lemma SentinelsAreNeutral(p: Params, categories: map<string, string>, store: seq<Service>, dbOk: bool)
    ensures GetServices(p["departamento" := "todos"], categories, store, dbOk) == GetServices(p - {"departamento"}, categories, store, dbOk)
    ensures GetServices(p["departamento" := ""], categories, store, dbOk) == GetServices(p - {"departamento"}, categories, store, dbOk)
    ensures GetServices(p["ciudad" := "todas"], categories, store, dbOk) == GetServices(p - {"ciudad"}, categories, store, dbOk)
    ensures GetServices(p["ciudad" := ""], categories, store, dbOk) == GetServices(p - {"ciudad"}, categories, store, dbOk)
  {
    NeutralKey(p, "departamento", "todos", categories);
    NeutralKey(p, "departamento", "", categories);
    NeutralKey(p, "ciudad", "todas", categories);
    NeutralKey(p, "ciudad", "", categories);
  }

  lemma NeutralKey(p: Params, key: string, v: string, categories: map<string, string>)
    requires key in {"departamento", "ciudad"}
    requires v == "" || (key == "departamento" && v == "todos") || (key == "ciudad" && v == "todas")
    ensures BuildWhere(p[key := v], categories) == BuildWhere(p - {key}, categories)
    ensures Skip(p[key := v]) == Skip(p - {key})
  {
    var a, b := p[key := v], p - {key};
    forall k | k != key ensures Get(a, k) == Get(b, k) && Has(a, k) == Has(b, k) {
      assert k in a <==> k in b;
    }
    SameWhere(a, b, categories);
  }

  /** Parameter maps that agree on every part of the query build the same clause and skip. */
  lemma SameWhere(a: Params, b: Params, categories: map<string, string>)
    requires forall k :: k in {"categoria", "moneda", "precioMin", "precioMax", "page"} ==> Get(a, k) == Get(b, k)
    requires Refinement(a, "departamento", Some("todos")) == Refinement(b, "departamento", Some("todos"))
    requires Refinement(a, "ciudad", Some("todas")) == Refinement(b, "ciudad", Some("todas"))
    ensures BuildWhere(a, categories) == BuildWhere(b, categories)
    ensures Skip(a) == Skip(b)
  {
    assert Get(a, "precioMin") == Get(b, "precioMin");
    assert Get(a, "precioMax") == Get(b, "precioMax");
    assert Bound(a, "precioMin") == Bound(b, "precioMin");
    assert Bound(a, "precioMax") == Bound(b, "precioMax");
    assert PriceRange(a) == PriceRange(b);
    assert Get(a, "categoria") == Get(b, "categoria");
    assert Get(a, "moneda") == Get(b, "moneda");
    assert Refinement(a, "moneda", None) == Refinement(b, "moneda", None);
    assert Get(a, "page") == Get(b, "page");
  }

  /** The page number is at least 1: an absent, zero, negative or non-numeric
      `page` gives page 1, any other number is used as it is. */
  lemma EffectivePageValue(p: Params)
    ensures EffectivePage(p) == (if NumberOf(Get(p, "page")).Some? && NumberOf(Get(p, "page")).value >= 1
                                 then NumberOf(Get(p, "page")).value else 1)
    ensures "page" !in p ==> EffectivePage(p) == 1
  {
  }

  /** The rows returned and the total come from the same `where`: the rows are
      the matching services from position `skip` on, at most 12 of them, and the
      total counts all matching services. */
  lemma PageOfMatches(p: Params, categories: map<string, string>, store: seq<Service>, dbOk: bool)
    requires GetServices(p, categories, store, dbOk).Success?
    ensures var w := BuildWhere(p, categories).value;
            var m := Matching(w, store);
            var pg := GetServices(p, categories, store, dbOk).value;
            pg.total == |m| &&
            |pg.services| <= ITEMS_PER_PAGE &&
            (Skip(p) >= |m| ==> pg.services == []) &&
            (forall i :: 0 <= i < |pg.services| ==>
               Skip(p) + i < |m| && pg.services[i].row == m[Skip(p) + i] && Matches(w, pg.services[i].row))
  {
    var w := BuildWhere(p, categories).value;
    var m := Matching(w, store);
    var rows := Window(m, Skip(p), ITEMS_PER_PAGE);
    var pg := GetServices(p, categories, store, dbOk).value;
    assert pg == Page(seq(|rows|, i requires 0 <= i < |rows| => ToItem(rows[i])), |m|);
    WindowSpec(m, Skip(p), ITEMS_PER_PAGE);
    forall i | 0 <= i < |pg.services|
      ensures Skip(p) + i < |m| && pg.services[i].row == m[Skip(p) + i] && Matches(w, pg.services[i].row)
    {
      assert pg.services[i].row == rows[i] == m[Skip(p) + i];
      assert m[Skip(p) + i] in m;
    }
  }

  /** Each item says whether its service has images, and carries its first
      image, or null when there is none or it is empty. */
  lemma ItemsShape(p: Params, categories: map<string, string>, store: seq<Service>, dbOk: bool)
    requires GetServices(p, categories, store, dbOk).Success?
    ensures var pg := GetServices(p, categories, store, dbOk).value;
            forall i :: 0 <= i < |pg.services| ==>
              (pg.services[i].tieneImagenes <==> pg.services[i].row.imagenes != []) &&
              (pg.services[i].imagen.Some? <==> pg.services[i].row.imagenes != [] && pg.services[i].row.imagenes[0] != "") &&
              (pg.services[i].imagen.Some? ==> pg.services[i].imagen.value == pg.services[i].row.imagenes[0])
  {
  }

  /** Asking for page `k` of the same query skips `(k - 1) * 12` matching rows. */
  lemma RequestedPage(p: Params, k: nat)
    requires k >= 1
    ensures Skip(p["page" := NatToString(k)]) == (k - 1) * ITEMS_PER_PAGE
  {
    NumberOfNatToString(k);
    assert Get(p["page" := NatToString(k)], "page") == Some(NatToString(k));
  }

  /** The first `n` pages of a sequence, in order. */
  function Pages<T>(s: seq<T>, n: nat): seq<seq<T>> {
    if n == 0 then [] else Pages(s, n - 1) + [Window(s, (n - 1) * ITEMS_PER_PAGE, ITEMS_PER_PAGE)]
  }

  /** Concatenating the first `n` pages gives the first `12 n` elements. */
  lemma {:induction false} PagesPrefix<T>(s: seq<T>, n: nat)
    ensures Seqs.Flatten(Pages(s, n)) == s[..if n * ITEMS_PER_PAGE <= |s| then n * ITEMS_PER_PAGE else |s|]
  {
    if n > 0 {
      PagesPrefix(s, n - 1);
      Seqs.FlattenAppend(Pages(s, n - 1), Window(s, (n - 1) * ITEMS_PER_PAGE, ITEMS_PER_PAGE));
      var a := (n - 1) * ITEMS_PER_PAGE;
      if a < |s| {
        var end := if a + ITEMS_PER_PAGE <= |s| then a + ITEMS_PER_PAGE else |s|;
        assert s[..a] + s[a..end] == s[..end];
      }
    }
  }

  /** Counting agrees with fetching everything: once the pages cover the total,
      their concatenation is exactly the matching sequence. */
  lemma PagesCoverMatches<T>(s: seq<T>, n: nat)
    requires n * ITEMS_PER_PAGE >= |s|
    ensures Seqs.Flatten(Pages(s, n)) == s
  {
    PagesPrefix(s, n);
  }

  /** Twenty-five matches make three pages: 12 on the first, only the 25th on
      the third, and an empty fourth page. */
  lemma TwentyFiveMatches<T>(s: seq<T>)
    requires |s| == 25
    ensures Window(s, 0, ITEMS_PER_PAGE) == s[..12]
    ensures Window(s, 2 * ITEMS_PER_PAGE, ITEMS_PER_PAGE) == [s[24]]
    ensures Window(s, 3 * ITEMS_PER_PAGE, ITEMS_PER_PAGE) == []
  {
  }
}
