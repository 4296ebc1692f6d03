/** The filter form of a category page (components/ServiceFilters.tsx): the
    department and city tables, the cities offered for the current department,
    and the query-string updates made on submit and on a department change. */
module ServiceFilters {

  import opened Wrappers
  import opened UrlParams
  import Middleware

  const Departamentos: seq<string> := [
    "Artigas", "Canelones", "Cerro Largo", "Colonia", "Durazno", "Flores",
    "Florida", "Lavalleja", "Maldonado", "Montevideo", "Paysandú", "Río Negro",
    "Rivera", "Rocha", "Salto", "San José", "Soriano", "Tacuarembó", "Treinta y Tres"]

  const Ciudades: map<string, seq<string>> := map[
    "Artigas" := ["Artigas", "Bella Unión", "Tomás Gomensoro", "Baltasar Brum"],
    "Canelones" := ["Canelones", "Ciudad de la Costa", "Las Piedras", "Pando", "La Paz",
                    "Santa Lucía", "Progreso", "Sauce", "Toledo", "Atlántida", "San Ramón"],
    "Cerro Largo" := ["Melo", "Río Branco", "Fraile Muerto", "Isidoro Noblía"],
    "Colonia" := ["Colonia del Sacramento", "Carmelo", "Juan Lacaze", "Nueva Helvecia",
                  "Rosario", "Nueva Palmira", "Tarariras"],
    "Durazno" := ["Durazno", "Sarandí del Yí", "Carmen", "La Paloma"],
    "Flores" := ["Trinidad", "Ismael Cortinas"],
    "Florida" := ["Florida", "Sarandí Grande", "Casupá", "Fray Marcos"],
    "Lavalleja" := ["Minas", "José Pedro Varela", "Solís de Mataojo", "Mariscala"],
    "Maldonado" := ["Maldonado", "Punta del Este", "San Carlos", "Pan de Azúcar",
                    "Piriápolis", "Aiguá"],
    "Montevideo" := ["Centro", "Ciudad Vieja", "Cordón", "Pocitos", "Punta Carretas",
                     "Carrasco", "Malvín", "Buceo", "Parque Rodó", "Prado", "La Blanqueada",
                     "Tres Cruces", "Palermo", "Barrio Sur", "Aguada", "La Comercial",
                     "Villa Española", "Unión", "Maroñas", "Cerrito"],
    "Paysandú" := ["Paysandú", "Guichón", "Quebracho", "Tambores"],
    "Río Negro" := ["Fray Bentos", "Young", "Nuevo Berlín", "San Javier"],
    "Rivera" := ["Rivera", "Tranqueras", "Vichadero", "Minas de Corrales"],
    "Rocha" := ["Rocha", "Chuy", "Castillos", "Lascano", "La Paloma", "La Pedrera"],
    "Salto" := ["Salto", "Constitución", "Belén", "San Antonio"],
    "San José" := ["San José de Mayo", "Ciudad del Plata", "Libertad", "Ecilda Paullier"],
    "Soriano" := ["Mercedes", "Dolores", "Cardona", "José Enrique Rodó"],
    "Tacuarembó" := ["Tacuarembó", "Paso de los Toros", "San Gregorio de Polanco"],
    "Treinta y Tres" := ["Treinta y Tres", "Vergara", "Santa Clara de Olimar"]]

  /** `searchParams.get("departamento") || ""`. */
  function CurrentDepartamento(p: Params): string {
    Get(p, "departamento").GetOr("")
  }

  /** The cities offered in the city selector for the current department. */
  function AvailableCities(departamento: string): (r: seq<string>)
    ensures (departamento == "" || departamento == "todos" || departamento !in Ciudades) ==> r == []
    ensures departamento != "" && departamento != "todos" && departamento in Ciudades ==> r == Ciudades[departamento]
  {
    if departamento != "" && departamento != "todos" then
      if departamento in Ciudades then Ciudades[departamento] else []
    else []
  }

  /** The city selector is disabled when no city is offered. */
  predicate CitySelectorEnabled(departamento: string) {
    |AvailableCities(departamento)| > 0
  }

  /** The city table has exactly the listed departments. */
  lemma DepartmentsAreCityKeys()
    ensures |Departamentos| == 19
    ensures forall d :: d in Departamentos <==> d in Ciudades
  {
  }

  /** Every department of the city table has a name and lists at least one city. */
  lemma CityListsNonEmpty()
    ensures forall d :: d in Ciudades ==> Ciudades[d] != [] && d != "" && d != "todos"
  {
  }

  /** Choosing any listed department enables the city selector. */
  lemma EveryDepartmentHasCities()
    ensures forall d :: d in Departamentos ==> d in Ciudades && Ciudades[d] != [] && CitySelectorEnabled(d)
  {
    DepartmentsAreCityKeys();
    CityListsNonEmpty();
    forall d | d in Departamentos ensures d in Ciudades && Ciudades[d] != [] && CitySelectorEnabled(d) {
      assert d in Ciudades;
      assert AvailableCities(d) == Ciudades[d];
    }
  }

  /** A form value that is set rather than deleted. */
  predicate Live(value: string) {
    value != "" && value != "todos" && value != "todas"
  }

  /** One iteration of the `formData.forEach` loop. */
  function FormStep(p: Params, entry: (string, string)): Params {
    if Live(entry.1) then p[entry.0 := entry.1] else p - {entry.0}
  }

  /** The parameters after the form entries have been applied in order. */
  function ApplyForm(p: Params, form: seq<(string, string)>): Params {
    if form == [] then p else FormStep(ApplyForm(p, form[..|form| - 1]), form[|form| - 1])
  }

  /** The route's `slug` parameter, `useParams().slug`, as a template
      literal prints it: a missing one is the text "undefined". */
  function SlugSegment(slug: Option<string>): string {
    if slug.Some? then slug.value else "undefined"
  }

  /** `handleSubmit`: drop `categoria`, then set or delete each form field;
      navigate to the category path of the route's `slug` with the result. */
  method HandleSubmit(current: Params, form: seq<(string, string)>, slug: Option<string>) returns (nav: Location)
    ensures nav.path == "/categoria/" + SlugSegment(slug)
    ensures nav.query == ApplyForm(current - {"categoria"}, form)
  {
    var p := current - {"categoria"};
    var i := 0;
    while i < |form|
      invariant 0 <= i <= |form|
      invariant p == ApplyForm(current - {"categoria"}, form[..i])
    {
      assert form[..i + 1][..i] == form[..i];
      var (key, value) := form[i];
      if value != "" && value != "todos" && value != "todas" {
        p := p[key := value];
      } else {
        p := p - {key};
      }
      i := i + 1;
    }
    assert form[..|form|] == form;
    nav := Location("/categoria/" + SlugSegment(slug), p);
  }

  /** The form is rendered on `/categoria`, whose route has no `slug`: a
      submit there goes, through the middleware, to the category
      "undefined", and the category being browsed is lost. */
  method SubmitWithoutSlug(current: Params, form: seq<(string, string)>) returns (resp: Middleware.Response)
    ensures resp.Redirect? && resp.location.path == "/categoria"
    ensures resp.location.query == ApplyForm(current - {"categoria"}, form)["categoria" := "undefined"]
  {
    var nav := HandleSubmit(current, form, None);
    UndefinedSegment(nav.path);
    resp := Middleware.Handle(nav.path, nav.query);
  }

  /** The path of a missing slug redirects to the category "undefined". */
  lemma UndefinedSegment(path: string)
    requires path == "/categoria/" + SlugSegment(None)
    ensures Middleware.Redirects(path) && path[|Middleware.PREFIX|..] == "undefined" && '/' !in "undefined"
  {
    assert path[..|Middleware.PREFIX|] == Middleware.PREFIX;
  }

  /** The category being browsed: the route's slug, or else the `categoria`
      parameter the middleware put in the query. */
  function BrowsedCategory(current: Params, slug: Option<string>): Option<string> {
    if slug.Some? then slug else Get(current, "categoria")
  }

  /** The navigation the form evidently intends: the category being browsed
      goes into the path, which the middleware turns back into `categoria`;
      without one the form stays on `/categoria`. */
  function IntendedPath(current: Params, slug: Option<string>): string {
    var c := BrowsedCategory(current, slug);
    if c.Some? then "/categoria/" + c.value else "/categoria"
  }

  /** `handleSubmit` with the intended path. */
  method HandleSubmitIntended(current: Params, form: seq<(string, string)>, slug: Option<string>) returns (nav: Location)
    ensures nav.path == IntendedPath(current, slug)
    ensures nav.query == ApplyForm(current - {"categoria"}, form)
  {
    nav := HandleSubmit(current, form, slug);
    nav := nav.(path := IntendedPath(current, slug));
  }

  /** The path to a category without `/` redirects to that category. */
  lemma CategorySegment(path: string, c: string)
    requires path == "/categoria/" + c && '/' !in c
    ensures Middleware.Redirects(path) && path[|Middleware.PREFIX|..] == c
  {
    assert path[..|Middleware.PREFIX|] == Middleware.PREFIX;
  }

  /** With the intended path, a submit on `/categoria` keeps the category
      being browsed (a slug has no `/`), and stays without one when there is
      none. */
  method SubmitKeepsCategory(current: Params, form: seq<(string, string)>) returns (resp: Middleware.Response)
    ensures "categoria" in current && '/' !in current["categoria"] ==>
              resp.Redirect? && resp.location.path == "/categoria" &&
              resp.location.query == ApplyForm(current - {"categoria"}, form)["categoria" := current["categoria"]]
    ensures "categoria" !in current ==> resp.Next?
  {
    var nav := HandleSubmitIntended(current, form, None);
    if "categoria" in current && '/' !in current["categoria"] {
      CategorySegment(nav.path, current["categoria"]);
    }
    resp := Middleware.Handle(nav.path, nav.query);
  }

  /** A key that no form entry names keeps its value, or its absence. */
  lemma {:induction false} ApplyFormUntouched(p: Params, form: seq<(string, string)>, k: string)
    requires forall i :: 0 <= i < |form| ==> form[i].0 != k
    ensures k in ApplyForm(p, form) <==> k in p
    ensures k in p ==> ApplyForm(p, form)[k] == p[k]
  {
    if form != [] {
      ApplyFormUntouched(p, form[..|form| - 1], k);
    }
  }

  /** A key that form entries name is decided by the last of them: set to its
      value when that value is live, deleted otherwise. */
  lemma {:induction false} ApplyFormLast(p: Params, form: seq<(string, string)>, i: nat)
    requires i < |form|
    requires forall j :: i < j < |form| ==> form[j].0 != form[i].0
    ensures Live(form[i].1) ==> form[i].0 in ApplyForm(p, form) && ApplyForm(p, form)[form[i].0] == form[i].1
    ensures !Live(form[i].1) ==> form[i].0 !in ApplyForm(p, form)
  {
    var init := form[..|form| - 1];
    if i < |form| - 1 {
      assert init[i] == form[i];
      ApplyFormLast(p, init, i);
    }
  }

  /** Submitting keeps every parameter the form does not name, such as `page`,
      and never leaves `categoria` behind unless the form sets it. */
  lemma SubmitKeepsOthers(current: Params, form: seq<(string, string)>, k: string)
    requires k != "categoria"
    requires forall i :: 0 <= i < |form| ==> form[i].0 != k
    ensures k in ApplyForm(current - {"categoria"}, form) <==> k in current
    ensures k in current ==> ApplyForm(current - {"categoria"}, form)[k] == current[k]
  {
    ApplyFormUntouched(current - {"categoria"}, form, k);
  }

  lemma SubmitDropsCategoria(current: Params, form: seq<(string, string)>)
    requires forall i :: 0 <= i < |form| ==> form[i].0 != "categoria"
    ensures "categoria" !in ApplyForm(current - {"categoria"}, form)
  {
    ApplyFormUntouched(current - {"categoria"}, form, "categoria");
  }

  /** `handleDepartamentoChange`: set or delete `departamento`, always delete
      `ciudad` and `categoria`, keep everything else. */
  method HandleDepartamentoChange(current: Params, value: string, slug: Option<string>) returns (nav: Location)
    ensures nav.path == "/categoria/" + SlugSegment(slug)
    ensures "categoria" !in nav.query && "ciudad" !in nav.query
    ensures value != "" && value != "todos" ==> "departamento" in nav.query && nav.query["departamento"] == value
    ensures !(value != "" && value != "todos") ==> "departamento" !in nav.query
    ensures forall k :: k !in {"categoria", "ciudad", "departamento"} ==>
              (k in nav.query <==> k in current) && (k in current ==> nav.query[k] == current[k])
  {
    var p := current - {"categoria"};
    if value != "" && value != "todos" {
      p := p["departamento" := value];
    } else {
      p := p - {"departamento"};
    }
    p := p - {"ciudad"};
    nav := Location("/categoria/" + SlugSegment(slug), p);
  }

  /** A department change on `/categoria` likewise lands on the category
      "undefined". */
  method DepartmentChangeWithoutSlug(current: Params, value: string) returns (resp: Middleware.Response)
    ensures resp.Redirect? && resp.location.path == "/categoria"
    ensures "categoria" in resp.location.query && resp.location.query["categoria"] == "undefined"
    ensures "ciudad" !in resp.location.query
  {
    var nav := HandleDepartamentoChange(current, value, None);
    UndefinedSegment(nav.path);
    resp := Middleware.Handle(nav.path, nav.query);
  }

  /** `handleDepartamentoChange` with the intended path. */
  method HandleDepartamentoChangeIntended(current: Params, value: string, slug: Option<string>) returns (nav: Location)
    ensures nav.path == IntendedPath(current, slug)
    ensures "categoria" !in nav.query && "ciudad" !in nav.query
    ensures value != "" && value != "todos" ==> "departamento" in nav.query && nav.query["departamento"] == value
    ensures !(value != "" && value != "todos") ==> "departamento" !in nav.query
    ensures forall k :: k !in {"categoria", "ciudad", "departamento"} ==>
              (k in nav.query <==> k in current) && (k in current ==> nav.query[k] == current[k])
  {
    nav := HandleDepartamentoChange(current, value, slug);
    nav := nav.(path := IntendedPath(current, slug));
  }

  /** With the intended path, a department change on `/categoria` keeps the
      category being browsed and clears the city. */
  method DepartmentChangeKeepsCategory(current: Params, value: string) returns (resp: Middleware.Response)
    ensures "categoria" in current && '/' !in current["categoria"] ==>
              resp.Redirect? && resp.location.path == "/categoria" &&
              "categoria" in resp.location.query && resp.location.query["categoria"] == current["categoria"] &&
              "ciudad" !in resp.location.query
    ensures "categoria" !in current ==> resp.Next?
  {
    var nav := HandleDepartamentoChangeIntended(current, value, None);
    if "categoria" in current && '/' !in current["categoria"] {
      CategorySegment(nav.path, current["categoria"]);
    }
    resp := Middleware.Handle(nav.path, nav.query);
  }
}
