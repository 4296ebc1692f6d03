/** The client-side filtered list of a category (components/category-client.tsx):
    a text search, department, city, price, currency and "only with images"
    filters applied to the given services, the department change that resets
    the city, the image source of a card and its WhatsApp link. */
module CategoryClient {

  import opened Wrappers
  import opened Text
  import opened JsNumbers
  import Seqs

  const NO_IMAGE := "https://images.unsplash.com/photo-1516156008625-3a9d6067fab5?w=500&h=300&fit=crop"
  const ERROR_IMAGE := "https://images.unsplash.com/photo-1594322436404-5a0526db4d13?w=500&h=300&fit=crop"

  const TODOS_DEPARTAMENTOS := "todos-departamentos"
  const TODAS_CIUDADES := "todas-ciudades"

  /** A service as this view receives it; the price is a string. */
  datatype Servicio = Servicio(
    id: string,
    titulo: string,
    descripcion: Option<string>,
    precio: Option<string>,
    moneda: Option<string>,
    departamento: Option<string>,
    ciudad: Option<string>,
    proveedor: string,
    telefonoPrincipal: Option<string>,
    whatsapp: bool,
    imagen: Option<string>,
    tieneImagenes: bool)

  /** The values of the filter controls. */
  datatype Criteria = Criteria(
    searchQuery: string,
    departamento: string,
    ciudad: string,
    precioMin: string,
    precioMax: string,
    moneda: string,
    soloConImagenes: bool)

  /** `a >= b` and `a <= b` on numbers; any comparison with NaN is false. */
  predicate AtLeast(a: Option<int>, b: Option<int>) {
    a.Some? && b.Some? && a.value >= b.value
  }

  predicate AtMost(a: Option<int>, b: Option<int>) {
    a.Some? && b.Some? && a.value <= b.value
  }

  predicate CumpleBusqueda(c: Criteria, s: Servicio) {
    Contains(Lower(s.titulo), Lower(c.searchQuery)) ||
    (s.descripcion.Some? && Contains(Lower(s.descripcion.value), Lower(c.searchQuery)))
  }

  predicate CumplePrecioMin(c: Criteria, s: Servicio) {
    c.precioMin == "" ||
    (s.precio.Some? && s.precio.value != "" && AtLeast(ParseInt(s.precio.value), ParseInt(c.precioMin)))
  }

  predicate CumplePrecioMax(c: Criteria, s: Servicio) {
    c.precioMax == "" ||
    (s.precio.Some? && s.precio.value != "" && AtMost(ParseInt(s.precio.value), ParseInt(c.precioMax)))
  }

  /** The seven conditions of the filter. */
  predicate Cumple(c: Criteria, s: Servicio) {
    CumpleBusqueda(c, s) &&
    (c.departamento == TODOS_DEPARTAMENTOS || s.departamento == Some(c.departamento)) &&
    (c.ciudad == TODAS_CIUDADES || s.ciudad == Some(c.ciudad)) &&
    CumplePrecioMin(c, s) &&
    CumplePrecioMax(c, s) &&
    (c.moneda == "" || s.moneda == Some(c.moneda)) &&
    (!c.soloConImagenes || s.tieneImagenes)
  }

  /** `serviciosFiltrados`. */
  function Filtrados(c: Criteria, servicios: seq<Servicio>): seq<Servicio> {
    Seqs.Filter(s => Cumple(c, s), servicios)
  }

  /** The result keeps exactly the services meeting all conditions, in their
      original order. */
  lemma FiltradosSpec(c: Criteria, a: seq<Servicio>, b: seq<Servicio>, s: Servicio)
    ensures s in Filtrados(c, a) <==> s in a && Cumple(c, s)
    ensures Filtrados(c, a + b) == Filtrados(c, a) + Filtrados(c, b)
    ensures (forall i :: 0 <= i < |a| ==> Cumple(c, a[i])) ==> Filtrados(c, a) == a
  {
    Seqs.FilterMembership(s => Cumple(c, s), a, s);
    Seqs.FilterConcat(s => Cumple(c, s), a, b);
    if forall i :: 0 <= i < |a| ==> Cumple(c, a[i]) {
      Seqs.FilterAll(s => Cumple(c, s), a);
    }
  }

  /** The search matches a lower-cased substring of the title or of the
      description, and an empty query matches every service. */
  lemma SearchCondition(c: Criteria, s: Servicio)
    ensures CumpleBusqueda(c, s) <==>
              (exists i :: OccursAt(Lower(s.titulo), Lower(c.searchQuery), i)) ||
              (s.descripcion.Some? && exists i :: OccursAt(Lower(s.descripcion.value), Lower(c.searchQuery), i))
    ensures c.searchQuery == "" ==> CumpleBusqueda(c, s)
  {
    if c.searchQuery == "" {
      assert Lower(c.searchQuery) == "";
      ContainsEmpty(Lower(s.titulo));
    }
  }

  /** A price bound that is set excludes services without a price; between
      digit strings it is the inclusive comparison of their values. */
  lemma PriceBounds(c: Criteria, s: Servicio)
    ensures c.precioMin != "" && (s.precio.None? || s.precio == Some("")) ==> !CumplePrecioMin(c, s)
    ensures c.precioMax != "" && (s.precio.None? || s.precio == Some("")) ==> !CumplePrecioMax(c, s)
    ensures c.precioMin != "" && AllDigits(c.precioMin) && s.precio.Some? && s.precio.value != "" && AllDigits(s.precio.value) ==>
              (CumplePrecioMin(c, s) <==> DigitsValue(s.precio.value) >= DigitsValue(c.precioMin))
    ensures c.precioMax != "" && AllDigits(c.precioMax) && s.precio.Some? && s.precio.value != "" && AllDigits(s.precio.value) ==>
              (CumplePrecioMax(c, s) <==> DigitsValue(s.precio.value) <= DigitsValue(c.precioMax))
  {
    if s.precio.Some? && s.precio.value != "" && AllDigits(s.precio.value) {
      ParseIntOnDigits(s.precio.value);
      if c.precioMin != "" && AllDigits(c.precioMin) {
        ParseIntOnDigits(c.precioMin);
      }
      if c.precioMax != "" && AllDigits(c.precioMax) {
        ParseIntOnDigits(c.precioMax);
      }
    }
  }

  /** The sentinels and empty values switch their conditions off. */
  lemma NeutralCriteria(c: Criteria, s: Servicio)
    requires c.searchQuery == "" && c.departamento == TODOS_DEPARTAMENTOS && c.ciudad == TODAS_CIUDADES
    requires c.precioMin == "" && c.precioMax == "" && c.moneda == "" && !c.soloConImagenes
    ensures Cumple(c, s)
  {
    SearchCondition(c, s);
  }

  /** `src={servicio.imagen || NO_IMAGE}` passed to `ServiceImage`. */
  function CardSource(s: Servicio): string {
    if s.imagen.Some? && s.imagen.value != "" then s.imagen.value else NO_IMAGE
  }

  /** `ServiceImage`'s shown source: the error image after a load error, the
      given source for a service with images, `NO_IMAGE` otherwise. */
  function ImageSource(src: string, tieneImagenes: bool, error: bool): (r: string)
    ensures error ==> r == ERROR_IMAGE
    ensures !error && tieneImagenes ==> r == src
    ensures !error && !tieneImagenes ==> r == NO_IMAGE
  {
    if error then ERROR_IMAGE else if tieneImagenes then src else NO_IMAGE
  }

  /** The overlay message is shown for a service without images or after an error. */
  function OverlayMessage(tieneImagenes: bool, error: bool): Option<string> {
    if !tieneImagenes || error then Some(if error then "Error al cargar la imagen" else "Sin imágenes") else None
  }

  /** The WhatsApp link of a card. A service with `whatsapp` but no phone
      gets the literal "undefined" after `wa.me/`. */
  function WaLink(s: Servicio): string {
    "https://wa.me/" +
      if !s.whatsapp then ""
      else if s.telefonoPrincipal.None? then "undefined"
      else RemoveWhitespace(s.telefonoPrincipal.value)
  }

  /** The link carries the phone with its white space removed, or nothing
      when the service does not accept WhatsApp. */
  lemma WaLinkNumber(s: Servicio)
    ensures StartsWith(WaLink(s), "https://wa.me/")
    ensures !s.whatsapp ==> WaLink(s) == "https://wa.me/"
    ensures s.whatsapp && s.telefonoPrincipal.Some? ==>
              var n := WaLink(s)[|"https://wa.me/"|..];
              n == RemoveWhitespace(s.telefonoPrincipal.value) &&
              forall i :: 0 <= i < |n| ==> !IsWhitespace(n[i])
  {
  }

  /** The component's state. */
  class CategoryView {
    var searchQuery: string
    var departamento: string
    var ciudad: string
    var precioMin: string
    var precioMax: string
    var moneda: string
    var soloConImagenes: bool
    var searchFocused: bool

    constructor ()
      ensures Current() == Criteria("", TODOS_DEPARTAMENTOS, TODAS_CIUDADES, "", "", "UYU", false)
      ensures !searchFocused
    {
      searchQuery := "";
      departamento := TODOS_DEPARTAMENTOS;
      ciudad := TODAS_CIUDADES;
      precioMin := "";
      precioMax := "";
      moneda := "UYU";
      soloConImagenes := false;
      searchFocused := false;
    }

    function Current(): Criteria
      reads this
    {
      Criteria(searchQuery, departamento, ciudad, precioMin, precioMax, moneda, soloConImagenes)
    }

    /** `handleDepartamentoChange`: the city goes back to "all cities". */
    method HandleDepartamentoChange(value: string)
      modifies this
      ensures Current() == old(Current()).(departamento := value, ciudad := TODAS_CIUDADES)
      ensures searchFocused == old(searchFocused)
    {
      departamento := value;
      ciudad := TODAS_CIUDADES;
    }

    /** The cities offered: none while all departments are selected, else the
        department's table entry, or none when it has none. */
    function CityOptions(): seq<string>
      reads this
    {
      if departamento != TODOS_DEPARTAMENTOS && departamento in Ciudades then Ciudades[departamento] else []
    }
  }

  const Departamentos: seq<string> := [
    "Montevideo", "Canelones", "Maldonado", "Colonia", "San José", "Paysandú",
    "Salto", "Rivera", "Tacuarembó", "Rocha"]

  const Ciudades: map<string, seq<string>> := map[
    "Montevideo" := ["Centro", "Pocitos", "Cordón", "Punta Carretas", "Malvín", "Carrasco"],
    "Canelones" := ["Las Piedras", "Ciudad de la Costa", "Pando", "La Paz"],
    "Maldonado" := ["Punta del Este", "Maldonado", "San Carlos"]]

  /** Only three of the ten departments offered have cities to choose from. */
  lemma FewDepartmentsHaveCities()
    ensures |Departamentos| == 10
    ensures forall d :: d in Ciudades ==> d in Departamentos
    ensures "Colonia" in Departamentos && "Colonia" !in Ciudades
  {
  }
}
