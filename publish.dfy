/** The server action `createService` (app/publicar/actions.ts): validate the
    submitted form, resolve the preferred contact method, insert the service
    connected to its category by slug and to its owner by email, then index it.
    The email check of the schema is the parameter `isEmail`; whether the
    insert and the index write succeed are the parameters `insertOk` and
    `indexOk`. */
module Publish {

  import opened Wrappers
  import Db

  const CREATE_ERROR := "Failed to create service"

  /** `precio` as sent: absent, or `Number(input)`, where `None` is NaN. */
  datatype PriceField = NoPrice | Price(n: Option<int>)

  /** The payload the client sends. */
  datatype FormInput = FormInput(
    categoria: Option<string>,
    titulo: string,
    descripcion: Option<string>,
    precio: PriceField,
    moneda: Option<string>,
    departamento: Option<string>,
    ciudad: Option<string>,
    proveedor: string,
    telefonoPrincipal: Option<string>,
    telefonoSecundario: Option<string>,
    whatsapp: Option<bool>,
    email: string,
    contactoPor: Option<string>)

  /** The values `formSchema.parse` returns. */
  datatype Validated = Validated(
    categoria: string,
    titulo: string,
    descripcion: Option<string>,
    precio: Option<int>,
    moneda: Option<string>,
    departamento: Option<string>,
    ciudad: Option<string>,
    proveedor: string,
    telefonoPrincipal: Option<string>,
    telefonoSecundario: Option<string>,
    whatsapp: bool,
    email: string,
    contactoPor: Option<string>)

  const CONTACT_OPTIONS: set<string> := {"email", "llamada-whatsapp", "todos"}

  /** The rules of `formSchema`. */
  predicate SchemaAccepts(f: FormInput, isEmail: string -> bool) {
    f.categoria.Some? &&
    10 <= |f.titulo| <= 100 &&
    !(f.precio.Price? && f.precio.n.None?) &&
    3 <= |f.proveedor| <= 50 &&
    isEmail(f.email) &&
    (f.contactoPor.Some? ==> f.contactoPor.value in CONTACT_OPTIONS)
  }

  /** `formSchema.parse(formData)`: the validated values, `whatsapp` defaulting to false. */
  function Parse(f: FormInput, isEmail: string -> bool): (r: Option<Validated>)
    ensures r.Some? <==> SchemaAccepts(f, isEmail)
  {
    if !SchemaAccepts(f, isEmail) then None
    else Some(Validated(
      f.categoria.value, f.titulo, f.descripcion,
      if f.precio.Price? then f.precio.n else None,
      f.moneda, f.departamento, f.ciudad, f.proveedor,
      f.telefonoPrincipal, f.telefonoSecundario,
      f.whatsapp.GetOr(false), f.email, f.contactoPor))
  }

  /** `!telefonoPrincipal ? "email" : contactoPor || "email"`. */
  function ResolveContactoPor(telefonoPrincipal: Option<string>, contactoPor: Option<string>): string {
    if telefonoPrincipal.None? || telefonoPrincipal.value == "" then "email"
    else if contactoPor.None? || contactoPor.value == "" then "email"
    else contactoPor.value
  }

  /** Without a primary phone the contact method is "email" whatever was asked;
      with one it is the requested method, "email" when none was given; the
      result is always one of the three options. */
  lemma ContactoPorRule(telefonoPrincipal: Option<string>, contactoPor: Option<string>)
    requires contactoPor.Some? ==> contactoPor.value in CONTACT_OPTIONS
    ensures telefonoPrincipal.None? || telefonoPrincipal == Some("") ==>
              ResolveContactoPor(telefonoPrincipal, contactoPor) == "email"
    ensures telefonoPrincipal.Some? && telefonoPrincipal.value != "" ==>
              ResolveContactoPor(telefonoPrincipal, contactoPor) == contactoPor.GetOr("email")
    ensures ResolveContactoPor(telefonoPrincipal, contactoPor) in CONTACT_OPTIONS
  {
  }

  /** The row inserted for validated values: every field but `categoria`, the
      resolved contact method, the image list as given, the category by slug
      and the owner by email. */
  function NewRecord(v: Validated, imageUrls: seq<string>, categoryId: string): Db.Record {
    Db.Record(0, v.titulo, v.descripcion, v.precio, v.moneda, v.departamento, v.ciudad,
              v.proveedor, v.telefonoPrincipal, v.telefonoSecundario, v.whatsapp, v.email,
              ResolveContactoPor(v.telefonoPrincipal, v.contactoPor), imageUrls, categoryId, v.email)
  }

  /** The inserted row keeps the submitted fields and the image list exactly
      (same order, no cap, no de-duplication), and its contact method never
      asks for a phone that was not given. */
  lemma NewRecordFields(f: FormInput, isEmail: string -> bool, imageUrls: seq<string>, categoryId: string)
    requires SchemaAccepts(f, isEmail)
    ensures var r := NewRecord(Parse(f, isEmail).value, imageUrls, categoryId);
            r.imagenes == imageUrls &&
            r.titulo == f.titulo && 10 <= |r.titulo| <= 100 &&
            r.proveedor == f.proveedor && 3 <= |r.proveedor| <= 50 &&
            r.email == f.email && r.userEmail == f.email && r.categoryId == categoryId &&
            r.whatsapp == (f.whatsapp == Some(true)) &&
            (f.precio.NoPrice? ==> r.precio.None?) &&
            (f.precio.Price? ==> r.precio == f.precio.n) &&
            r.contactoPor in CONTACT_OPTIONS &&
            (r.telefonoPrincipal.None? || r.telefonoPrincipal == Some("") ==> r.contactoPor == "email")
  {
    ContactoPorRule(f.telefonoPrincipal, f.contactoPor);
  }

  /** The outcome `{ success, data }` or `{ success: false, error }`. */
  datatype Outcome = Created(data: Db.Document) | Failed(error: string)

  /** The submission fails before any write when validation fails or the slug
      has no category. */
  predicate Writable(f: FormInput, isEmail: string -> bool, categories: map<string, Db.Category>) {
    SchemaAccepts(f, isEmail) && f.categoria.value in categories
  }

  /** `createService(formData, imageUrls)`. */
  method CreateService(store: Db.Store, f: FormInput, imageUrls: seq<string>, isEmail: string -> bool,
                       insertOk: bool, indexOk: bool) returns (r: Outcome)
    requires store.Valid()
    modifies store
    ensures store.Valid()
    ensures store.categories == old(store.categories)
    ensures r.Created? <==> Writable(f, isEmail, old(store.categories)) && insertOk && indexOk
    ensures r.Failed? ==> r.error == CREATE_ERROR
    ensures Writable(f, isEmail, old(store.categories)) && insertOk ==>
              var row := NewRecord(Parse(f, isEmail).value, imageUrls, old(store.categories)[f.categoria.value].id)
                           .(id := |old(store.services)|);
              store.services == old(store.services) + [row] &&
              store.users == old(store.users) + {f.email} &&
              store.index == old(store.index) +
                (if indexOk then [Db.Document(row, old(store.categories)[f.categoria.value], f.email)] else []) &&
              (r.Created? ==> r.data == Db.Document(row, old(store.categories)[f.categoria.value], f.email))
    ensures Writable(f, isEmail, old(store.categories)) && insertOk ==>
              f.email in store.users && (f.email in old(store.users) ==> store.users == old(store.users))
    ensures !(Writable(f, isEmail, old(store.categories)) && insertOk) ==>
              store.services == old(store.services) && store.users == old(store.users) && store.index == old(store.index)
  {
    var validated := Parse(f, isEmail);
    if validated.None? {
      return Failed(CREATE_ERROR);
    }
    var v := validated.value;
    if v.categoria !in store.categories || !insertOk {
      return Failed(CREATE_ERROR);
    }
    var category := store.categories[v.categoria];
    assert category.id in store.CategoryIds();
    var service := store.Insert(NewRecord(v, imageUrls, category.id));
    var doc := Db.Document(service, category, v.email);
    if !indexOk {
      return Failed(CREATE_ERROR);
    }
    store.SaveObject(doc);
    r := Created(doc);
  }
}
