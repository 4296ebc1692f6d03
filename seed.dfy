/** The database seed script (prisma/seed.ts): one test user, the ten
    categories, then 30 services with randomly chosen category, place,
    price, currency, phone, WhatsApp flag and image. Each `Math.random` draw
    is a nondeterministic choice within the range the code derives from it;
    the ids the database assigns to categories are a parameter. */
module Seed {

  import opened Wrappers
  import opened Text
  import Db
  import Consts

  const TEST_USER := "test@example.com"
  const SERVICE_COUNT: nat := 30

  datatype CategoryData = CategoryData(name: string, slug: string, icon: string)

  const Categorias: seq<CategoryData> := [
    CategoryData("Instalación y Mantenimiento", "instalacion-mantenimiento", "Wrench"),
    CategoryData("Construcción y Carpintería", "construccion-carpinteria", "Hammer"),
    CategoryData("Servicios Domésticos", "servicios-domesticos", "Home"),
    CategoryData("Salud y Belleza", "salud-belleza", "Heart"),
    CategoryData("Artes y Entretenimiento", "artes-entretenimiento", "Palette"),
    CategoryData("Tecnología e Informática", "tecnologia-informatica", "Computer"),
    CategoryData("Servicios Profesionales", "servicios-profesionales", "Shield"),
    CategoryData("Educación y Tutorías", "educacion-tutorias", "BookOpen"),
    CategoryData("Transporte y Mudanzas", "transporte-mudanzas", "Truck"),
    CategoryData("Gastronomía y Catering", "gastronomia-catering", "ChefHat")]

  const Departamentos: seq<string> := [
    "Montevideo", "Canelones", "Maldonado", "Colonia", "San José", "Paysandú", "Salto", "Rivera"]

  const Ciudades: map<string, seq<string>> := map[
    "Montevideo" := ["Centro", "Pocitos", "Cordón", "Punta Carretas", "Malvín"],
    "Canelones" := ["Las Piedras", "Ciudad de la Costa", "Pando", "La Paz"],
    "Maldonado" := ["Punta del Este", "Maldonado", "San Carlos"],
    "Colonia" := ["Colonia del Sacramento", "Carmelo", "Nueva Helvecia"],
    "San José" := ["San José de Mayo", "Ciudad del Plata", "Libertad"],
    "Paysandú" := ["Paysandú", "Guichón", "Quebracho"],
    "Salto" := ["Salto", "Daymán", "Constitución"],
    "Rivera" := ["Rivera", "Tranqueras", "Vichadero"]]

  const Imagenes: seq<string> := [
    "https://images.unsplash.com/photo-1621905251918-48416bd8575a",
    "https://images.unsplash.com/photo-1585338107529-13afc5f02586",
    "https://images.unsplash.com/photo-1594322436404-5a0526db4d13",
    "https://images.unsplash.com/photo-1516156008625-3a9d6067fab5"]

  /** The category tables agree: slugs are distinct, every icon is a key of
      the icon table, and every department has a non-empty city list. */
  lemma TablesAgree()
    ensures |Categorias| == 10
    ensures forall i, j :: 0 <= i < j < |Categorias| ==> Categorias[i].slug != Categorias[j].slug
    ensures forall i :: 0 <= i < |Categorias| ==> Consts.IconMap(Categorias[i].icon).Some?
    ensures forall d :: d in Departamentos <==> d in Ciudades
    ensures forall d :: d in Ciudades ==> |Ciudades[d]| > 0
  {
  }

  lemma DepartmentCities(d: nat)
    requires d < |Departamentos|
    ensures Departamentos[d] in Ciudades && |Ciudades[Departamentos[d]]| > 0
  {
    TablesAgree();
  }

  function CategoryOf(ids: seq<string>, j: nat): Db.Category
    requires |ids| == |Categorias| && j < |Categorias|
  {
    Db.Category(ids[j], Categorias[j].name, Categorias[j].slug, Categorias[j].icon)
  }

  /** The categories table after the first `k` creates. */
  function Created(ids: seq<string>, k: nat): map<string, Db.Category>
    requires |ids| == |Categorias| && k <= |Categorias|
  {
    if k == 0 then map[] else Created(ids, k - 1)[Categorias[k - 1].slug := CategoryOf(ids, k - 1)]
  }

  lemma {:induction false} CreatedSpec(ids: seq<string>, k: nat)
    requires |ids| == |Categorias| && k <= |Categorias|
    ensures forall slug :: slug in Created(ids, k) ==>
              exists j :: 0 <= j < k && slug == Categorias[j].slug && Created(ids, k)[slug] == CategoryOf(ids, j)
  {
    if k > 0 {
      CreatedSpec(ids, k - 1);
    }
  }

  /** The slug map of the created categories sends each slug to its id, and
      each id is a stored category's. */
  lemma SlugsAndIds(store: Db.Store, ids: seq<string>, created: seq<Db.Category>)
    requires |ids| == |Categorias|
    requires store.categories == Created(ids, |Categorias|)
    requires created == seq(|Categorias|, j requires 0 <= j < |Categorias| => CategoryOf(ids, j))
    ensures forall j :: 0 <= j < |Categorias| ==>
              Categorias[j].slug in Db.SlugMap(created) && Db.SlugMap(created)[Categorias[j].slug] == ids[j] &&
              ids[j] in store.CategoryIds()
  {
    TablesAgree();
    CategoriesCreated(ids);
    forall j | 0 <= j < |Categorias|
      ensures Categorias[j].slug in Db.SlugMap(created) && Db.SlugMap(created)[Categorias[j].slug] == ids[j] &&
              ids[j] in store.CategoryIds()
    {
      Db.SlugMapDistinct(created, j);
      assert store.categories[Categorias[j].slug].id == ids[j];
    }
  }

  /** After all creates, every category is stored under its slug. */
  lemma CategoriesCreated(ids: seq<string>)
    requires |ids| == |Categorias|
    ensures forall j :: 0 <= j < |Categorias| ==>
              CategoryOf(ids, j).slug in Created(ids, |Categorias|) &&
              Created(ids, |Categorias|)[CategoryOf(ids, j).slug] == CategoryOf(ids, j)
  {
    TablesAgree();
    forall j | 0 <= j < |Categorias|
      ensures CategoryOf(ids, j).slug in Created(ids, |Categorias|) &&
              Created(ids, |Categorias|)[CategoryOf(ids, j).slug] == CategoryOf(ids, j)
    {
      CreatedKeeps(ids, j, |Categorias|);
    }
  }

  lemma {:induction false} CreatedKeeps(ids: seq<string>, j: nat, k: nat)
    requires |ids| == |Categorias| && j < k <= |Categorias|
    requires forall a, b :: 0 <= a < b < |Categorias| ==> Categorias[a].slug != Categorias[b].slug
    ensures Categorias[j].slug in Created(ids, k) && Created(ids, k)[Categorias[j].slug] == CategoryOf(ids, j)
  {
    if j < k - 1 {
      CreatedKeeps(ids, j, k - 1);
    }
  }

  /** `"098" + Math.floor(Math.random() * 1000000).toString().padStart(6, "0")`. */
  function Phone(n: nat): string {
    "098" + PadStart(NatToString(n), 6, '0')
  }

  /** "098" followed by exactly six digits. */
  predicate IsSeedPhone(p: string) {
    |p| == 9 && p[..3] == "098" && AllDigits(p[3..])
  }

  lemma PhoneShape(n: nat)
    requires n < 1000000
    ensures IsSeedPhone(Phone(n))
  {
    assert Pow10(6) == 1000000 by {
      assert Pow10(1) == 10 && Pow10(2) == 100 && Pow10(3) == 1000;
    }
    NatToStringLength(n, 6, Pow10(6));
    var p := PadStart(NatToString(n), 6, '0');
    assert Phone(n)[3..] == p;
    forall i | 0 <= i < |p| ensures IsDigit(p[i]) {
      if i >= 6 - |NatToString(n)| {
        assert p[i] == p[6 - |NatToString(n)|..][i - (6 - |NatToString(n)|)];
      }
    }
  }

  /** `imagenes[i % imagenes.length]`: the fixed images in turn. */
  function SeedImage(k: nat): (r: string)
    ensures r in Imagenes
  {
    assert |Imagenes| == 4;
    Imagenes[k % 4]
  }

  /** The texts of service number `k + 1`. */
  function Titulo(j: nat, k: nat): string
    requires j < |Categorias|
  {
    "Servicio de " + Categorias[j].name + " " + NatToString(k + 1)
  }

  function Descripcion(k: nat): string {
    "Descripción detallada del servicio " + NatToString(k + 1) +
    ". Ofrecemos atención personalizada y garantía en nuestro trabajo."
  }

  function Proveedor(k: nat): string {
    "Proveedor " + NatToString(k + 1)
  }

  function Email(k: nat): string {
    "proveedor" + NatToString(k + 1) + "@example.com"
  }

  /** The row belongs to one of the seeded categories, and its title names it. */
  ghost predicate SeededCategory(r: Db.Record, k: nat, ids: seq<string>)
    requires |ids| == |Categorias|
  {
    exists j :: 0 <= j < |Categorias| && r.categoryId == ids[j] && r.titulo == Titulo(j, k)
  }

  /** The row's city is one of the cities listed for its department. */
  predicate SeededPlace(r: Db.Record) {
    r.departamento.Some? && r.departamento.value in Ciudades &&
    r.ciudad.Some? && r.ciudad.value in Ciudades[r.departamento.value]
  }

  /** What is known of the `k`-th seeded row (counting from 0). */
  ghost predicate SeededRow(r: Db.Record, k: nat, ids: seq<string>, contactoPor: string)
    requires |ids| == |Categorias|
  {
    SeededCategory(r, k, ids) &&
    r.id == k && r.userEmail == TEST_USER &&
    SeededTexts(r, k) && SeededPrice(r) && SeededPlace(r) && SeededContact(r, contactoPor) &&
    (r.imagenes == [] || r.imagenes == [SeedImage(k)])
  }

  /** The description, provider name and email of service number `k + 1`. */
  predicate SeededTexts(r: Db.Record, k: nat) {
    r.descripcion == Some(Descripcion(k)) && r.proveedor == Proveedor(k) && r.email == Email(k)
  }

  /** A price in 500 to 5499, in UYU or USD. */
  predicate SeededPrice(r: Db.Record) {
    r.precio.Some? && 500 <= r.precio.value <= 5499 &&
    (r.moneda == Some("UYU") || r.moneda == Some("USD"))
  }

  /** A seeded phone, no second phone, and the given contact preference. */
  predicate SeededContact(r: Db.Record, contactoPor: string) {
    r.telefonoPrincipal.Some? && IsSeedPhone(r.telefonoPrincipal.value) &&
    r.telefonoSecundario.None? && r.contactoPor == contactoPor
  }

  /** The random choices of one iteration: the category index, the
      department and city, the price, the currency (`true` for UYU), the six
      phone digits, the WhatsApp flag and whether an image is attached. */
  datatype Draw = Draw(j: nat, departamento: string, ciudad: string, precio: int, uyu: bool, n: nat,
                       whatsapp: bool, withImage: bool)

  /** The ranges `Math.random` is scaled to. */
  predicate InRange(d: Draw) {
    d.j < |Categorias| && d.departamento in Ciudades && d.ciudad in Ciudades[d.departamento] &&
    500 <= d.precio <= 5499 && d.n < 1000000
  }

  /** The `Math.random` calls of one iteration. */
  method RandomDraw() returns (d: Draw)
    ensures InRange(d)
  {
    var j :| 0 <= j < |Categorias|;
    var k :| 0 <= k < |Departamentos|;
    DepartmentCities(k);
    var departamento := Departamentos[k];
    var ciudades := Ciudades[departamento];
    var c :| 0 <= c < |ciudades|;
    var precio :| 500 <= precio <= 5499;
    var uyu: bool :| true;
    var n :| 0 <= n < 1000000;
    var whatsapp: bool :| true;
    var withImage: bool :| true;
    d := Draw(j, departamento, ciudades[c], precio, uyu, n, whatsapp, withImage);
  }

  /** The row the loop builds for iteration `i` from its random choices. */
  function Row(i: nat, d: Draw, categoryId: string, contactoPor: string): Db.Record
    requires d.j < |Categorias|
  {
    Db.Record(
      0, Titulo(d.j, i), Some(Descripcion(i)),
      Some(d.precio), Some(if d.uyu then "UYU" else "USD"), Some(d.departamento), Some(d.ciudad),
      Proveedor(i), Some(Phone(d.n)), None, d.whatsapp, Email(i), contactoPor,
      if d.withImage then [SeedImage(i)] else [],
      categoryId, TEST_USER)
  }

  /** Every choice the loop can make gives a row with the promised shape. */
  lemma RowIsSeeded(r: Db.Record, i: nat, d: Draw, ids: seq<string>, contactoPor: string)
    requires |ids| == |Categorias| && InRange(d)
    requires r == Row(i, d, ids[d.j], contactoPor).(id := i)
    ensures SeededRow(r, i, ids, contactoPor)
  {
    PhoneShape(d.n);
  }

  /** The `Promise.all` of category creates, taken in order, on a table
      without categories. */
  method CreateCategories(store: Db.Store, ids: seq<string>) returns (created: seq<Db.Category>)
    requires store.Valid() && store.categories == map[]
    requires |ids| == |Categorias| && forall i, j :: 0 <= i < j < |ids| ==> ids[i] != ids[j]
    modifies store
    ensures store.Valid()
    ensures store.categories == Created(ids, |Categorias|)
    ensures created == seq(|Categorias|, j requires 0 <= j < |Categorias| => CategoryOf(ids, j))
    ensures store.users == old(store.users) && store.services == old(store.services) && store.index == old(store.index)
  {
    created := [];
    var k := 0;
    while k < |Categorias|
      invariant 0 <= k <= |Categorias|
      invariant store.Valid()
      invariant store.categories == Created(ids, k)
      invariant created == seq(k, j requires 0 <= j < k => CategoryOf(ids, j))
      invariant store.users == old(store.users) && store.services == old(store.services) && store.index == old(store.index)
    {
      var c := CategoryOf(ids, k);
      CreatedFresh(ids, k);
      assert c.id !in store.CategoryIds();
      var ok := store.AddCategory(c);
      assert ok;
      var next := created + [c];
      assert next == seq(k + 1, j requires 0 <= j < k + 1 => CategoryOf(ids, j)) by {
        assert |next| == k + 1;
        forall j | 0 <= j < k + 1 ensures next[j] == CategoryOf(ids, j) {
          if j < k {
            assert next[j] == created[j];
          }
        }
      }
      created := next;
      k := k + 1;
    }
  }

  /** Before the `k`-th create, neither its slug nor its id is taken. */
  lemma CreatedFresh(ids: seq<string>, k: nat)
    requires |ids| == |Categorias| && forall i, j :: 0 <= i < j < |ids| ==> ids[i] != ids[j]
    requires k < |Categorias|
    ensures Categorias[k].slug !in Created(ids, k)
    ensures forall slug :: slug in Created(ids, k) ==> Created(ids, k)[slug].id != ids[k]
    ensures ids[k] !in (set slug | slug in Created(ids, k) :: Created(ids, k)[slug].id)
  {
    TablesAgree();
    CreatedSpec(ids, k);
  }

  /** One iteration of the creation loop: draw the random values and insert
      the row for service number `i + 1`. */
  method SeedService(store: Db.Store, i: nat, ids: seq<string>, contactoPor: string, categoriasMap: map<string, string>)
    requires store.Valid() && i == |store.services|
    requires |ids| == |Categorias|
    requires forall j :: 0 <= j < |Categorias| ==>
               Categorias[j].slug in categoriasMap && categoriasMap[Categorias[j].slug] == ids[j] &&
               ids[j] in store.CategoryIds()
    requires store.users == {TEST_USER}
    modifies store
    ensures store.Valid()
    ensures store.categories == old(store.categories) && store.users == old(store.users) && store.index == old(store.index)
    ensures |store.services| == i + 1 && store.services[..i] == old(store.services)
    ensures SeededRow(store.services[i], i, ids, contactoPor)
  {
    var d := RandomDraw();
    var slug := Categorias[d.j].slug;
    assert slug in categoriasMap && categoriasMap[slug] == ids[d.j] && ids[d.j] in store.CategoryIds();
    var categoryId := categoriasMap[slug];
    var row := Row(i, d, categoryId, contactoPor);
    RowIsSeeded(row.(id := i), i, d, ids, contactoPor);
    assert row.userEmail == TEST_USER;
    var stored := store.Insert(row);
    assert store.services[i] == stored == row.(id := i);
    assert store.users == {TEST_USER} + {TEST_USER} == {TEST_USER};
  }

  /** `main()` on an empty database. `contactoPor` is the column default of
      the schema, which the script does not set. */
  method Seed(store: Db.Store, ids: seq<string>, contactoPor: string)
    requires store.Valid()
    requires store.categories == map[] && store.users == {} && store.services == []
    requires |ids| == |Categorias| && forall i, j :: 0 <= i < j < |ids| ==> ids[i] != ids[j]
    modifies store
    ensures store.Valid()
    ensures store.users == {TEST_USER} && store.index == old(store.index)
    ensures store.categories == Created(ids, |Categorias|)
    ensures |store.services| == SERVICE_COUNT
    ensures forall k :: 0 <= k < SERVICE_COUNT ==> SeededRow(store.services[k], k, ids, contactoPor)
  {
    var ok := store.AddUser(TEST_USER);
    var created := CreateCategories(store, ids);
    var categoriasMap := Db.SlugMap(created);
    SlugsAndIds(store, ids, created);
    SeedServices(store, ids, contactoPor, categoriasMap);
  }

  /** The creation loop: `SERVICE_COUNT` rows, each of the seeded shape for
      its position, inserted into a store that holds none yet. */
  method SeedServices(store: Db.Store, ids: seq<string>, contactoPor: string, categoriasMap: map<string, string>)
    requires store.Valid() && store.services == []
    requires |ids| == |Categorias|
    requires forall j :: 0 <= j < |Categorias| ==>
               Categorias[j].slug in categoriasMap && categoriasMap[Categorias[j].slug] == ids[j] &&
               ids[j] in store.CategoryIds()
    requires store.users == {TEST_USER}
    modifies store
    ensures store.Valid()
    ensures store.categories == old(store.categories) && store.users == {TEST_USER} && store.index == old(store.index)
    ensures |store.services| == SERVICE_COUNT
    ensures forall k :: 0 <= k < SERVICE_COUNT ==> SeededRow(store.services[k], k, ids, contactoPor)
  {
    ghost var categories := store.categories;
    var i := 0;
    while i < SERVICE_COUNT
      invariant 0 <= i <= SERVICE_COUNT
      invariant store.Valid()
      invariant store.categories == categories
      invariant store.users == {TEST_USER} && store.index == old(store.index)
      invariant |store.services| == i
      invariant AllSeeded(store.services, ids, contactoPor)
    {
      ghost var before := store.services;
      SeedService(store, i, ids, contactoPor, categoriasMap);
      AllSeededAppend(before, store.services, ids, contactoPor);
      i := i + 1;
    }
  }

  /** Every row has the seeded shape for its position. */
  ghost predicate AllSeeded(rows: seq<Db.Record>, ids: seq<string>, contactoPor: string)
    requires |ids| == |Categorias|
  {
    forall k :: 0 <= k < |rows| ==> SeededRow(rows[k], k, ids, contactoPor)
  }

  lemma AllSeededAppend(before: seq<Db.Record>, after: seq<Db.Record>, ids: seq<string>, contactoPor: string)
    requires |ids| == |Categorias|
    requires AllSeeded(before, ids, contactoPor)
    requires |after| == |before| + 1 && after[..|before|] == before
    requires SeededRow(after[|before|], |before|, ids, contactoPor)
    ensures AllSeeded(after, ids, contactoPor)
  {
    forall k | 0 <= k < |after| ensures SeededRow(after[k], k, ids, contactoPor) {
      if k < |before| {
        assert after[k] == after[..|before|][k] == before[k];
      }
    }
  }
}
