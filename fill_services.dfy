/** The bulk import script (fill-services.ts): case-insensitive
    de-duplication by email, batching by 10, and the per-service outcome of
    a batch. The language-model categorisation is a parameter: for each
    service, its answer, or `None` when the call or the parsing of its reply
    throws. Its confidence is a percentage (0.6 becomes 60), or `None` when
    the reply has no numeric confidence. */
module FillServices {

  import opened Wrappers
  import opened Text
  import Seqs
  import Db

  const BATCH_SIZE: nat := 10
  const DEFAULT_USER_EMAIL := "test@example.com"

  /** A record of the input JSON file. */
  datatype ServiceData = ServiceData(
    nombre: string,
    servicio: string,
    descripcion: Option<string>,
    telefono: Option<string>,
    email: Option<string>,
    whatsapp: Option<string>,
    ubicacion: Option<string>,
    imagen: Option<string>)

  datatype Categorization = Categorization(categorySlug: string, confidence: Option<int>, reasoning: string)

  /** The JavaScript truthiness of an optional string. */
  predicate Truthy(o: Option<string>) {
    o.Some? && o.value != ""
  }

  /** The de-duplication key: the lower-cased email, or none when it is absent or empty. */
  function EmailKey(s: ServiceData): Option<string> {
    if Truthy(s.email) then Some(Lower(s.email.value)) else None
  }

  /** One step of the de-duplication scan over `all[i..]`, given the
      lower-cased emails `seen` so far: a service without an email is kept, a
      service whose email was seen is dropped, and any other is kept and its
      email joins `seen`. */
  lemma DedupStep(seen: set<string>, all: seq<ServiceData>, i: nat)
    requires i < |all|
    ensures var s := all[i];
            Seqs.KeepFirstBy(EmailKey, seen, all[i..]) ==
              if !Truthy(s.email) then [s] + Seqs.KeepFirstBy(EmailKey, seen, all[i + 1..])
              else if Lower(s.email.value) in seen then Seqs.KeepFirstBy(EmailKey, seen, all[i + 1..])
              else [s] + Seqs.KeepFirstBy(EmailKey, seen + {Lower(s.email.value)}, all[i + 1..])
  {
    var s := all[i];
    assert all[i..][0] == s && all[i..][1..] == all[i + 1..];
    Seqs.KeepFirstByStep(EmailKey, seen, all[i..]);
    assert EmailKey(s) == if Truthy(s.email) then Some(Lower(s.email.value)) else None;
  }

  /** The `allServices.filter` with `emailMap`. */
  method DedupByEmail(all: seq<ServiceData>) returns (services: seq<ServiceData>)
    ensures services == Seqs.KeepFirstBy(EmailKey, {}, all)
    ensures services == Seqs.Firsts(EmailKey, {}, all, |all|)
  {
    DedupByEmailKeepsFirst(all);
    var emailMap: map<string, ServiceData> := map[];
    services := [];
    var i := 0;
    assert all[0..] == all;
    assert emailMap.Keys == {};
    while i < |all|
      invariant 0 <= i <= |all|
      invariant Seqs.KeepFirstBy(EmailKey, {}, all) == services + Seqs.KeepFirstBy(EmailKey, emailMap.Keys, all[i..])
    {
      var s := all[i];
      DedupStep(emailMap.Keys, all, i);
      if !Truthy(s.email) {
        Seqs.AppendAssoc(services, [s], Seqs.KeepFirstBy(EmailKey, emailMap.Keys, all[i + 1..]));
        services := services + [s];
      } else if Lower(s.email.value) !in emailMap {
        ghost var keys := emailMap.Keys;
        emailMap := emailMap[Lower(s.email.value) := s];
        assert emailMap.Keys == keys + {Lower(s.email.value)};
        Seqs.AppendAssoc(services, [s], Seqs.KeepFirstBy(EmailKey, emailMap.Keys, all[i + 1..]));
        services := services + [s];
      }
      i := i + 1;
    }
  }

  /** Services without an email all stay, lower-cased emails are pairwise
      distinct afterwards, and every email of the input keeps one service. */
  lemma DedupByEmailSpec(all: seq<ServiceData>, k: nat)
    ensures Seqs.Filter(s => EmailKey(s).None?, Seqs.KeepFirstBy(EmailKey, {}, all)) == Seqs.Filter(s => EmailKey(s).None?, all)
    ensures var r := Seqs.KeepFirstBy(EmailKey, {}, all);
            forall i, j :: 0 <= i < j < |r| && Truthy(r[i].email) && Truthy(r[j].email) ==>
              Lower(r[i].email.value) != Lower(r[j].email.value)
    ensures k < |all| && Truthy(all[k].email) ==>
              exists j :: 0 <= j < |Seqs.KeepFirstBy(EmailKey, {}, all)| &&
                Truthy(Seqs.KeepFirstBy(EmailKey, {}, all)[j].email) &&
                Lower(Seqs.KeepFirstBy(EmailKey, {}, all)[j].email.value) == Lower(all[k].email.value)
  {
    var r := Seqs.KeepFirstBy(EmailKey, {}, all);
    Seqs.KeepFirstByKeyless(EmailKey, {}, all, s => EmailKey(s).None?);
    Seqs.KeepFirstByDistinct(EmailKey, {}, all);
    if k < |all| && Truthy(all[k].email) {
      Seqs.KeepFirstByCovers(EmailKey, {}, all, k);
    }
  }

  /** Service `i` is the first of `all` with its email, ignoring case, or has
      no email. */
  predicate FirstWithEmail(all: seq<ServiceData>, i: nat)
    requires i < |all|
  {
    !Truthy(all[i].email) ||
    forall j :: 0 <= j < i ==> !(Truthy(all[j].email) && Lower(all[j].email.value) == Lower(all[i].email.value))
  }

  /** The de-duplication keeps exactly the services that have no email or
      are the first with theirs, in input order: an earlier service wins
      over every later one with the same email. */
  lemma DedupByEmailKeepsFirst(all: seq<ServiceData>)
    ensures Seqs.KeepFirstBy(EmailKey, {}, all) == Seqs.Firsts(EmailKey, {}, all, |all|)
    ensures forall i :: 0 <= i < |all| ==> (Seqs.IsFirst(EmailKey, {}, all, i) <==> FirstWithEmail(all, i))
  {
    Seqs.KeepFirstByIsFirsts(EmailKey, {}, all);
    forall i | 0 <= i < |all| ensures Seqs.IsFirst(EmailKey, {}, all, i) <==> FirstWithEmail(all, i) {
      if Truthy(all[i].email) {
        forall j | 0 <= j < i
          ensures EmailKey(all[j]) != EmailKey(all[i]) <==>
                    !(Truthy(all[j].email) && Lower(all[j].email.value) == Lower(all[i].email.value))
        {
        }
      }
    }
  }

  /** The first of two services sharing an email in another case is kept and
      the second dropped. */
  lemma DuplicateDropped(a: ServiceData, b: ServiceData)
    requires Truthy(a.email) && Truthy(b.email) && Lower(a.email.value) == Lower(b.email.value)
    ensures Seqs.KeepFirstBy(EmailKey, {}, [a, b]) == [a]
  {
    assert [a, b][1..] == [b];
    assert [b][1..] == [];
  }

  function Min(a: int, b: int): int {
    if a < b then a else b
  }

  /** The batching loop: `services.slice(i, i + BATCH_SIZE)` for i = 0, 10, ... */
  method MakeBatches<T>(services: seq<T>) returns (batches: seq<seq<T>>)
    ensures |batches| == (|services| + BATCH_SIZE - 1) / BATCH_SIZE
    ensures forall k :: 0 <= k < |batches| ==>
              batches[k] == services[BATCH_SIZE * k..Min(BATCH_SIZE * k + BATCH_SIZE, |services|)]
    ensures forall k :: 0 <= k < |batches| ==> 1 <= |batches[k]| <= BATCH_SIZE
    ensures forall k :: 0 <= k < |batches| - 1 ==> |batches[k]| == BATCH_SIZE
    ensures Seqs.Flatten(batches) == services
  {
    var n := |services|;
    batches := [];
    var i := 0;
    while i < n
      invariant i == BATCH_SIZE * |batches|
      invariant |batches| == 0 || BATCH_SIZE * (|batches| - 1) < n
      invariant forall k :: 0 <= k < |batches| ==>
                  batches[k] == services[BATCH_SIZE * k..Min(BATCH_SIZE * k + BATCH_SIZE, n)]
      invariant Seqs.Flatten(batches) == services[..Min(i, n)]
      decreases n - i
    {
      var batch := services[i..Min(i + BATCH_SIZE, n)];
      Seqs.FlattenAppend(batches, batch);
      assert services[..Min(i, n)] + batch == services[..Min(i + BATCH_SIZE, n)];
      ghost var before := batches;
      batches := batches + [batch];
      forall k | 0 <= k < |batches| ensures batches[k] == services[BATCH_SIZE * k..Min(BATCH_SIZE * k + BATCH_SIZE, n)] {
        if k < |before| {
          assert batches[k] == before[k];
        }
      }
      i := i + BATCH_SIZE;
    }
    assert services[..Min(i, n)] == services;
    assert n <= BATCH_SIZE * |batches|;
  }

  /** The row created for an accepted service. */
  function ServiceRecord(s: ServiceData, categoryId: string): Db.Record {
    Db.Record(
      0, s.nombre,
      Some(if Truthy(s.descripcion) then s.descripcion.value else ""),
      None, None, None, None,
      s.nombre, s.telefono, None,
      Truthy(s.whatsapp),
      if Truthy(s.email) then s.email.value else "",
      "email",
      if Truthy(s.imagen) then [s.imagen.value] else [],
      categoryId,
      if Truthy(s.email) then s.email.value else DEFAULT_USER_EMAIL)
  }

  /** The created row copies the name into title and provider, has no price or
      location, at most one image, contact by email, and is owned by the
      service's email or the fallback user. */
  lemma ServiceRecordFields(s: ServiceData, categoryId: string)
    ensures var r := ServiceRecord(s, categoryId);
            r.titulo == s.nombre && r.proveedor == s.nombre &&
            r.descripcion.Some? && (s.descripcion.None? ==> r.descripcion.value == "") &&
            (r.whatsapp <==> s.whatsapp.Some? && s.whatsapp.value != "") &&
            |r.imagenes| <= 1 && (r.imagenes == [] <==> !Truthy(s.imagen)) &&
            r.contactoPor == "email" &&
            r.precio.None? && r.moneda.None? && r.departamento.None? && r.ciudad.None? &&
            r.userEmail != "" && (!Truthy(s.email) ==> r.userEmail == DEFAULT_USER_EMAIL) &&
            r.categoryId == categoryId
  {
  }

  /** A service is created when the categorisation succeeded with a confidence
      that is not below 60%, its slug names a category id, that category
      exists, and the insert succeeds. */
  predicate Creates(a: Option<Categorization>, categoriasMap: map<string, string>, ids: set<string>, createOk: bool) {
    a.Some? &&
    !(a.value.confidence.Some? && a.value.confidence.value < 60) &&
    a.value.categorySlug in categoriasMap && categoriasMap[a.value.categorySlug] != "" &&
    categoriasMap[a.value.categorySlug] in ids &&
    createOk
  }

  /** The non-null results, in order. */
  function Somes<T>(results: seq<Option<T>>): seq<T> {
    if results == [] then []
    else Somes(results[..|results| - 1]) + (if results[|results| - 1].Some? then [results[|results| - 1].value] else [])
  }

  function UserEmails(rows: seq<Db.Record>): set<string> {
    if rows == [] then {} else UserEmails(rows[..|rows| - 1]) + {rows[|rows| - 1].userEmail}
  }

  lemma SomesAppend<T>(results: seq<Option<T>>, o: Option<T>)
    ensures Somes(results + [o]) == Somes(results) + (if o.Some? then [o.value] else [])
  {
    assert (results + [o])[..|results|] == results;
  }

  lemma UserEmailsAppend(rows: seq<Db.Record>, r: Db.Record)
    ensures UserEmails(rows + [r]) == UserEmails(rows) + {r.userEmail}
  {
    assert (rows + [r])[..|rows|] == rows;
  }

  /** The outcome of one service: a record exactly when it is created, and
      then the record built from the service and its category id. */
  predicate IsOutcome(s: ServiceData, a: Option<Categorization>, categoriasMap: map<string, string>, ids: set<string>,
                      createOk: bool, o: Option<Db.Record>) {
    (o.Some? <==> Creates(a, categoriasMap, ids, createOk)) &&
    (o.Some? ==> o.value == ServiceRecord(s, categoriasMap[a.value.categorySlug]).(id := o.value.id))
  }

  /** The first `|results|` services of the batch have their outcomes in `results`. */
  predicate AllOutcomes(batch: seq<ServiceData>, answers: seq<Option<Categorization>>, categoriasMap: map<string, string>,
                        ids: set<string>, createOk: seq<bool>, results: seq<Option<Db.Record>>) {
    |results| <= |batch| && |answers| == |batch| && |createOk| == |batch| &&
    forall j :: 0 <= j < |results| ==> IsOutcome(batch[j], answers[j], categoriasMap, ids, createOk[j], results[j])
  }

  lemma AllOutcomesAppend(batch: seq<ServiceData>, answers: seq<Option<Categorization>>, categoriasMap: map<string, string>,
                          ids: set<string>, createOk: seq<bool>, results: seq<Option<Db.Record>>, o: Option<Db.Record>)
    requires AllOutcomes(batch, answers, categoriasMap, ids, createOk, results) && |results| < |batch|
    requires IsOutcome(batch[|results|], answers[|results|], categoriasMap, ids, createOk[|results|], o)
    ensures AllOutcomes(batch, answers, categoriasMap, ids, createOk, results + [o])
  {
    var after := results + [o];
    forall j | 0 <= j < |after| ensures IsOutcome(batch[j], answers[j], categoriasMap, ids, createOk[j], after[j]) {
      if j < |results| {
        assert after[j] == results[j];
      }
    }
  }

  /** One step of the totals: the rows and the owners grow by the new record, if any. */
  lemma TotalsAppend(results: seq<Option<Db.Record>>, o: Option<Db.Record>)
    ensures Somes(results + [o]) == Somes(results) + (if o.Some? then [o.value] else [])
    ensures UserEmails(Somes(results + [o])) == UserEmails(Somes(results)) + (if o.Some? then {o.value.userEmail} else {})
  {
    SomesAppend(results, o);
    if o.Some? {
      UserEmailsAppend(Somes(results), o.value);
    } else {
      assert Somes(results + [o]) == Somes(results);
    }
  }

  /** One iteration of the batch loop: categorise, look the slug up, create. */
  method ProcessService(store: Db.Store, s: ServiceData, categoriasMap: map<string, string>,
                        a: Option<Categorization>, createOk: bool)
    returns (outcome: Option<Db.Record>)
    requires store.Valid()
    modifies store
    ensures store.Valid()
    ensures IsOutcome(s, a, categoriasMap, old(store.CategoryIds()), createOk, outcome)
    ensures store.services == old(store.services) + (if outcome.Some? then [outcome.value] else [])
    ensures store.users == old(store.users) + (if outcome.Some? then {outcome.value.userEmail} else {})
    ensures store.categories == old(store.categories) && store.index == old(store.index)
  {
    outcome := None;
    if Creates(a, categoriasMap, store.CategoryIds(), createOk) {
      var categoryId := categoriasMap[a.value.categorySlug];
      var stored := store.Insert(ServiceRecord(s, categoryId));
      outcome := Some(stored);
    }
  }

  /** `processServicesBatch`: one result per service, in order. */
  method ProcessServicesBatch(store: Db.Store, batch: seq<ServiceData>, categoriasMap: map<string, string>,
                              answers: seq<Option<Categorization>>, createOk: seq<bool>)
    returns (results: seq<Option<Db.Record>>)
    requires store.Valid()
    requires |answers| == |batch| && |createOk| == |batch|
    modifies store
    ensures store.Valid()
    ensures |results| == |batch|
    ensures forall i :: 0 <= i < |batch| ==>
              (results[i].Some? <==> Creates(answers[i], categoriasMap, old(store.CategoryIds()), createOk[i]))
    ensures forall i :: 0 <= i < |batch| && results[i].Some? ==>
              Creates(answers[i], categoriasMap, old(store.CategoryIds()), createOk[i]) &&
              results[i].value == ServiceRecord(batch[i], categoriasMap[answers[i].value.categorySlug]).(id := results[i].value.id)
    ensures store.services == old(store.services) + Somes(results)
    ensures store.users == old(store.users) + UserEmails(Somes(results))
    ensures store.categories == old(store.categories) && store.index == old(store.index)
  {
    results := [];
    var i := 0;
    while i < |batch|
      invariant 0 <= i <= |batch| && |results| == i
      invariant store.Valid()
      invariant store.categories == old(store.categories) && store.index == old(store.index)
      invariant store.CategoryIds() == old(store.CategoryIds())
      invariant AllOutcomes(batch, answers, categoriasMap, old(store.CategoryIds()), createOk, results)
      invariant store.services == old(store.services) + Somes(results)
      invariant store.users == old(store.users) + UserEmails(Somes(results))
    {
      var outcome := ProcessService(store, batch[i], categoriasMap, answers[i], createOk[i]);
      AllOutcomesAppend(batch, answers, categoriasMap, old(store.CategoryIds()), createOk, results, outcome);
      TotalsAppend(results, outcome);
      Seqs.AppendAssoc(old(store.services), Somes(results), if outcome.Some? then [outcome.value] else []);
      results := results + [outcome];
      i := i + 1;
    }
  }

  /** `results.filter((r) => r !== null).length`. */
  function SuccessCount<T>(results: seq<Option<T>>): nat {
    |Seqs.Filter((r: Option<T>) => r.Some?, results)|
  }

  /** The success count is the number of rows the batch inserted. */
  lemma {:induction false} SuccessCountIsInserted<T>(results: seq<Option<T>>)
    ensures SuccessCount(results) == |Somes(results)|
  {
    if results != [] {
      var init := results[..|results| - 1];
      SuccessCountIsInserted(init);
      assert init + [results[|results| - 1]] == results;
      Seqs.FilterConcat((r: Option<T>) => r.Some?, init, [results[|results| - 1]]);
    }
  }
}
