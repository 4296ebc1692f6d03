/** The landing page (app/page.tsx): the fixed list of ten categories, the
    categories whose name contains the typed query, and the suggestion panel
    under the search box. */
module Landing {

  import opened Text
  import Seqs
  import Consts
  import Seed

  datatype Categoria = Categoria(name: string, slug: string, icon: Consts.Icon)

  const Categories: seq<Categoria> := [
    Categoria("Instalación y Mantenimiento", "instalacion-mantenimiento", Consts.Wrench),
    Categoria("Construcción y Carpintería", "construccion-carpinteria", Consts.Hammer),
    Categoria("Servicios Domésticos", "servicios-domesticos", Consts.Home),
    Categoria("Salud y Belleza", "salud-belleza", Consts.Heart),
    Categoria("Artes y Entretenimiento", "artes-entretenimiento", Consts.Palette),
    Categoria("Tecnología e Informática", "tecnologia-informatica", Consts.Computer),
    Categoria("Servicios Profesionales", "servicios-profesionales", Consts.Shield),
    Categoria("Educación y Tutorías", "educacion-tutorias", Consts.BookOpen),
    Categoria("Transporte y Mudanzas", "transporte-mudanzas", Consts.Truck),
    Categoria("Gastronomía y Catering", "gastronomia-catering", Consts.ChefHat)]

  /** The number of categories offered as popular suggestions. */
  const POPULAR: nat := 5

  /** `category.name.toLowerCase().includes(searchQuery.toLowerCase())`. */
  predicate NameMatches(c: Categoria, query: string) {
    Contains(Lower(c.name), Lower(query))
  }

  /** `filteredCategories`, over the list `cats` (the page's list is
      `Categories`). */
  function Filtered(cats: seq<Categoria>, query: string): seq<Categoria> {
    Seqs.Filter(c => NameMatches(c, query), cats)
  }

  /** The filtered list holds exactly the categories whose name contains the
      query, ignoring ASCII case; it is empty exactly when no name does, and
      an empty query keeps the whole list, in order. Filtering distributes over
      concatenation, so the kept categories stay in their original order. */
  lemma FilteredSpec(cats: seq<Categoria>, query: string)
    ensures forall c :: c in Filtered(cats, query) <==> c in cats && NameMatches(c, query)
    ensures forall a, b :: Filtered(a + b, query) == Filtered(a, query) + Filtered(b, query)
    ensures forall c :: Filtered([c], query) == if NameMatches(c, query) then [c] else []
    ensures Filtered(cats, query) != [] <==> exists c :: c in cats && NameMatches(c, query)
    ensures query == "" ==> Filtered(cats, query) == cats
  {
    forall c ensures c in Filtered(cats, query) <==> c in cats && NameMatches(c, query) {
      Seqs.FilterMembership(c => NameMatches(c, query), cats, c);
    }
    if Filtered(cats, query) != [] {
      assert Filtered(cats, query)[0] in Filtered(cats, query);
    }
    forall a, b ensures Filtered(a + b, query) == Filtered(a, query) + Filtered(b, query) {
      Seqs.FilterConcat(c => NameMatches(c, query), a, b);
    }
    if query == "" {
      forall i | 0 <= i < |cats| ensures NameMatches(cats[i], query) {
        ContainsEmpty(Lower(cats[i].name));
      }
      Seqs.FilterAll(c => NameMatches(c, query), cats);
    }
  }

  /** What the panel under the search box shows. */
  datatype Panel = Hidden | Matching(items: seq<Categoria>) | Popular(items: seq<Categoria>)

  /** The panel is shown only while the box is focused; it lists the matches
      when the query is non-empty and some category's name contains it, and
      otherwise the first five categories as popular suggestions. */
  function SuggestionPanel(cats: seq<Categoria>, focused: bool, query: string): (r: Panel)
    requires |cats| >= POPULAR
    ensures r.Hidden? <==> !focused
    ensures r.Matching? <==> focused && query != "" && exists c :: c in cats && NameMatches(c, query)
    ensures r.Matching? ==> r.items == Filtered(cats, query) && r.items != []
    ensures r.Popular? ==> r.items == cats[..POPULAR] && |r.items| == POPULAR
  {
    FilteredSpec(cats, query);
    if !focused then Hidden
    else if query != "" && |Filtered(cats, query)| > 0 then
      Matching(Filtered(cats, query))
    else Popular(cats[..POPULAR])
  }

  /** Each entry links to its category page. */
  function Href(c: Categoria): string {
    "/categoria/" + c.slug
  }

  /** The slugs, which also key the rendered links, are pairwise distinct, so
      distinct entries link to distinct pages; the list is the one the seed
      script creates, with the same names, slugs and icon names. */
  lemma CategoriesAgree()
    ensures |Categories| == 10
    ensures forall i, j :: 0 <= i < j < |Categories| ==> Categories[i].slug != Categories[j].slug
    ensures forall i, j :: 0 <= i < j < |Categories| ==> Href(Categories[i]) != Href(Categories[j])
    ensures |Seed.Categorias| == |Categories|
    ensures forall i :: 0 <= i < |Categories| ==>
              Categories[i].name == Seed.Categorias[i].name && Categories[i].slug == Seed.Categorias[i].slug &&
              Consts.IconName(Categories[i].icon) == Seed.Categorias[i].icon
  {
    forall i, j | 0 <= i < j < |Categories| ensures Href(Categories[i]) != Href(Categories[j]) {
      var a, b := Href(Categories[i]), Href(Categories[j]);
      assert a[|"/categoria/"|..] == Categories[i].slug;
      assert b[|"/categoria/"|..] == Categories[j].slug;
    }
  }

  /** The page's state: whether the search box has focus, and its text. */
  class LandingPage {
    var searchFocused: bool
    var searchQuery: string

    constructor()
      ensures !searchFocused && searchQuery == ""
    {
      searchFocused := false;
      searchQuery := "";
    }

    method Focus()
      modifies this
      ensures searchFocused && searchQuery == old(searchQuery)
    {
      searchFocused := true;
    }

    /** The 200 ms delay before the panel closes is not modelled. */
    method Blur()
      modifies this
      ensures !searchFocused && searchQuery == old(searchQuery)
    {
      searchFocused := false;
    }

    method Change(value: string)
      modifies this
      ensures searchQuery == value && searchFocused == old(searchFocused)
    {
      searchQuery := value;
    }

    function Panel(): Panel
      reads this
    {
      SuggestionPanel(Categories, searchFocused, searchQuery)
    }
  }
}
