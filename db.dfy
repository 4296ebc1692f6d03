/** The database as the application uses it: categories by slug, users by
    their unique email, the service table and the services search index. A
    service's id is its position in the table, and its owner is referred to
    by the owner's email. */
module Db {

  import opened Wrappers

  datatype Category = Category(id: string, name: string, slug: string, icon: string)

  /** A row of the service table. */
  datatype Record = Record(
    id: nat,
    titulo: string,
    descripcion: Option<string>,
    precio: Option<int>,
    moneda: Option<string>,
    departamento: Option<string>,
    ciudad: Option<string>,
    proveedor: string,
    telefonoPrincipal: Option<string>,
    telefonoSecundario: Option<string>,
    whatsapp: bool,
    email: string,
    contactoPor: string,
    imagenes: seq<string>,
    categoryId: string,
    userEmail: string)

  /** A document of the services index: the row with its category and user. */
  datatype Document = Document(service: Record, category: Category, userEmail: string)

  /** `categories.reduce((acc, cat) => { acc[cat.slug] = cat.id; return acc; }, {})`:
      slug to id, the last category winning for a repeated slug. */
  function SlugMap(categories: seq<Category>): (m: map<string, string>)
    ensures forall slug :: slug in m <==> exists i :: 0 <= i < |categories| && categories[i].slug == slug
  {
    if categories == [] then map[]
    else
      var init := categories[..|categories| - 1];
      var last := categories[|categories| - 1];
      assert forall i :: 0 <= i < |init| ==> init[i] == categories[i];
      SlugMap(init)[last.slug := last.id]
  }

  /** With pairwise distinct slugs, each slug maps to its own category's id. */
  lemma {:induction false} SlugMapDistinct(categories: seq<Category>, k: nat)
    requires forall i, j :: 0 <= i < j < |categories| ==> categories[i].slug != categories[j].slug
    requires k < |categories|
    ensures categories[k].slug in SlugMap(categories) && SlugMap(categories)[categories[k].slug] == categories[k].id
  {
    var init := categories[..|categories| - 1];
    if k < |categories| - 1 {
      assert init[k] == categories[k];
      SlugMapDistinct(init, k);
    }
  }

  class Store {
    var categories: map<string, Category>
    var users: set<string>
    var services: seq<Record>
    var index: seq<Document>

    constructor ()
      ensures categories == map[] && users == {} && services == [] && index == []
      ensures Valid()
    {
      categories := map[];
      users := {};
      services := [];
      index := [];
    }

    /** The ids of the stored categories. */
    function CategoryIds(): set<string>
      reads this`categories
    {
      set slug | slug in categories :: categories[slug].id
    }

    /** Categories are stored under their own slug; every service has the
        next id, an existing owner and an existing category. */
    ghost predicate Valid()
      reads this
    {
      (forall slug :: slug in categories ==> categories[slug].slug == slug) &&
      (forall i :: 0 <= i < |services| ==>
         services[i].id == i && services[i].userEmail in users && services[i].categoryId in CategoryIds())
    }

    /** `prisma.user.create`: an email already taken violates the unique
        constraint and nothing is written. */
    method AddUser(email: string) returns (ok: bool)
      requires Valid()
      modifies this
      ensures Valid()
      ensures ok <==> email !in old(users)
      ensures users == old(users) + {email}
      ensures categories == old(categories) && services == old(services) && index == old(index)
    {
      ok := email !in users;
      users := users + {email};
    }

    /** `prisma.category.create`: a slug or id already taken violates the
        unique constraint and nothing is written. */
    method AddCategory(c: Category) returns (ok: bool)
      requires Valid()
      modifies this
      ensures Valid()
      ensures ok <==> c.slug !in old(categories) && c.id !in old(CategoryIds())
      ensures categories == if ok then old(categories)[c.slug := c] else old(categories)
      ensures users == old(users) && services == old(services) && index == old(index)
    {
      if c.slug in categories || c.id in CategoryIds() {
        return false;
      }
      categories := categories[c.slug := c];
      assert old(CategoryIds()) <= CategoryIds() by {
        forall id | id in old(CategoryIds()) ensures id in CategoryIds() {
          var slug :| slug in old(categories) && old(categories)[slug].id == id;
          assert categories[slug] == old(categories)[slug];
        }
      }
      ok := true;
    }

    /** The sole insertion into the service table: the owner is connected by
        email or created, and the row gets the next id. */
    method Insert(r: Record) returns (stored: Record)
      requires Valid()
      requires r.categoryId in CategoryIds()
      modifies this
      ensures Valid()
      ensures stored == r.(id := |old(services)|)
      ensures services == old(services) + [stored]
      ensures users == old(users) + {r.userEmail}
      ensures categories == old(categories) && index == old(index)
    {
      stored := r.(id := |services|);
      users := users + {r.userEmail};
      services := services + [stored];
    }

    /** `searchClient.saveObject` on the services index. */
    method SaveObject(d: Document)
      modifies this
      ensures index == old(index) + [d]
      ensures categories == old(categories) && users == old(users) && services == old(services)
    {
      index := index + [d];
    }
  }
}
