# urulico in Dafny

urulico is a directory of service providers in Uruguay. Providers publish a
service with a title, a description, a category, a department and city, a
price, contact details and images. Visitors browse a category with filters,
or search the text index. This project models the logic under the React
pages and the Prisma, Algolia, uploadthing and Anthropic wrappers, and it
proves what that logic promises:

- **Category listing** (`Listing`, from `getServices`). String query
  parameters become a conjunction of optional constraints:
  - a category id set, possibly empty;
  - `departamento` and `ciudad`, each with its sentinel;
  - an exact `moneda`;
  - an inclusive price range.

  The page is clamped to at least 1. The window is `skip`/`take = 12`. The
  count is taken over the same predicate.
- **Page arithmetic** (`Paging`, `Pagination`, `ServicesList`,
  `CategoryContent`, `CategoryPage`). This covers `Number(page) || 1`,
  `ceil(total / 12)`, the page buttons, the prev/next enablement, the
  decision to show pagination, and the page-change navigations.
- **URL filter transitions** (`ServiceFilters`, `Middleware`). These are the
  parameter-map updates made by the filter form and the department
  selector, and the redirect of `/categoria/<slug>` to `/categoria?categoria=<slug>`.
- **Publishing a service** (`Publish`, `PublishClient`). This covers:
  - the form schema;
  - the `contactoPor` rule;
  - connect-by-slug for the category;
  - connect-or-create for the user, by email;
  - the insert and then the index write, on a `Db.Store` class;
  - the client's image lists: the cap of ten, appends and removal by index;
  - the price conversion.
- **Client-side filtering** (`CategoryClient`, `Landing`). This covers the
  seven-condition filter over a category's services, the home page's
  category suggestions and the search box's suggestion panel.
- **Search** (`Search`, `ServiceHeader`). This covers:
  - the two index requests, which are skipped for an empty query;
  - the result limits;
  - the highlight fallback;
  - the `<em>` rewrite;
  - the header's trim guard.
- **Sitemap generation** (`Sitemap`). This covers:
  - the route of a page file, with route groups and a trailing `index` dropped;
  - dynamic-segment detection and the expansion of dynamic routes;
  - de-duplication;
  - the sitemap entries and the configuration merge.
- **Import and seed scripts** (`FillServices`, `Seed`). This covers:
  - case-insensitive email de-duplication;
  - batches of ten;
  - one outcome per imported service;
  - the record defaults;
  - the 30 generated services and the ranges of their values.
- **Small helpers**:
  - the title-casing of a slug (`CategoryHeader`);
  - the contact links and the image choice of the service page
    (`ServiceClient`, `ServiceGallery`);
  - the icon table (`Consts`).

Shared modules:

- `Wrappers` holds Option and Result.
- `Seqs` holds filter, flatten, keep-first de-duplication and remove-at.
- `Text` holds white space, trim, ASCII case, substring, split and join,
  and decimal printing.
- `JsNumbers` holds JavaScript's `Number` and `parseInt` on decimal strings.
- `UrlParams` models a `URLSearchParams` as a `map<string, string>`.

The database is an in-memory `Db.Store`. It is a class whose fields hold:

- the categories by slug;
- the user emails;
- the services, where a service's id is its position;
- the search-index documents.

Operations that change the store are methods with `modifies` clauses. Page
state that React keeps in `useState` is modelled as classes:
`PublishForm`, `CategoryView`, `FilterPanel`, `LandingPage`, `ServicePage`,
`Gallery` and `SearchBox`. Loops in the source are methods with
invariants, each proved against a specification function:
`ExpandDynamicRoutes`, `DedupByEmail`, `MakeBatches`,
`ProcessServicesBatch`, `CreateCategories` and `SeedServices`.

The outside world is passed in as parameters:

- outcomes of external calls: the insert and index-write results, whether
  the listing's database queries complete (`dbOk` of `getServices`), the
  upload result, the language-model categorisation, and the Algolia hits
  as functions from query to hits;
- `encodeURIComponent` and the email regex, as functions;
- `Math.random` in the seed script, which becomes nondeterministic choices
  (`:|`) inside `RandomDraw`.

Where the code and the natural reading of it differ, the model follows the code:

- The server stores the image list as given. It does not cap it.
- A failed index write returns `success: false` with the generic error,
  even though the service row was already inserted.
- An empty `q` skips both index queries. A blank `q` made only of white
  space is trimmed to `""` and sent to both indexes.
- Submitting the filter form keeps `page` and every other parameter that is
  not a form field.
- The category client builds `https://wa.me/undefined` for a WhatsApp
  service with no phone.
- The pagination target is `/categoria/null` when the `categoria`
  parameter is missing.
- A price of 0 is falsy, so `{precio && …}` renders the number itself: the
  bare text "0" instead of a price line.
- `currentPage` is not clamped in `ServicesList`, `CategoryContent` or
  `CategoryPage`, so `"-3"` gives `-3`. Only `getServices` clamps its page.

Three predicates have no contract and therefore no row in the table:

- `PublishClient.PublishForm.TileUploading`: a preview tile shows
  "Subiendo..." exactly when its index is at least the number of uploaded
  URLs (app/publicar/client.tsx:241).
- `PublishClient.PublishForm.CanAddImages`: the upload tile is offered below
  ten files.
- `CategoryHeader.FilterPanel.ShowsFilters`: the filters are rendered
  exactly when the panel is open.

## Model

| member | source | states |
|---|---|---|
| Listing.BuildWhere | app/categoria/actions.ts:10-42 | the where clause fails exactly when `categoria` is missing or empty, or a price bound is not a number |
| Listing.EffectivePage | app/categoria/actions.ts:44 | the effective page is always at least 1 |
| Listing.EffectivePageValue | app/categoria/actions.ts:44 | the page is the parsed `page` when that is a number of at least 1, and 1 otherwise, including when `page` is absent |
| Listing.GetServicesFails | app/categoria/actions.ts:8-82 | `getServices` fails exactly when `categoria` is missing or empty, a price bound does not parse, or a database query throws; the error is always "Failed to fetch services" |
| Listing.MatchesAdmits | app/categoria/actions.ts:16-42 | a service matches the built where clause exactly when it passes every optional constraint: category id, department and city unless a sentinel, exact currency when given, each inclusive price bound when given |
| Listing.UnknownCategoryIsEmpty | app/categoria/actions.ts:17-24 | a slug naming no category yields an empty page with total 0, without error |
| Listing.SentinelsAreNeutral | app/categoria/actions.ts:25-32 | `departamento` set to "todos" or "", and `ciudad` set to "todas" or "", give the same result as the parameter being absent |
| Listing.NeutralKey | app/categoria/actions.ts:25-32 | a sentinel or empty department or city value leaves the where clause and the skip as if the key were absent |
| Listing.SameWhere | app/categoria/actions.ts:16-45 | two parameter maps that agree on every key read, up to the department and city sentinels, give the same where clause and skip |
| Listing.PageOfMatches | app/categoria/actions.ts:45-69 | total is the number of matching services; at most 12 rows are returned; row i is matching service skip + i, in store order; a page past the end is empty |
| Listing.ItemsShape | app/categoria/actions.ts:71-76 | each item has `tieneImagenes` exactly when its image list is non-empty, and `imagen` is its first image when that is present and non-empty |
| Listing.RequestedPage | app/categoria/actions.ts:44-45 | asking for page k (k at least 1) skips (k - 1) * 12 rows |
| Listing.PagesPrefix | app/categoria/actions.ts:45-51 | the first n consecutive pages, concatenated, are the first min(12n, total) matches |
| Listing.PagesCoverMatches | app/categoria/actions.ts:47-69 | enough consecutive pages, concatenated, are exactly the matching list |
| Listing.TwentyFiveMatches | app/categoria/actions.ts:44-51 | with 25 matches, page 1 holds the first 12, page 3 holds the 25th alone and page 4 is empty |
| Paging.CurrentPageValue | app/categoria/components/ServicesList.tsx:19 | `Number(page) \|\| 1`: absent, 0 and non-numeric give 1; any other integer is kept unclamped and read back unchanged from its printed form |
| Paging.TotalPagesIsCeiling | app/categoria/components/ServicesList.tsx:20 | the page count is the ceiling of total / 12, and 0 exactly when total is 0 |
| Paging.PageButtonsAscending | app/categoria/components/Pagination.tsx:37 | the buttons are exactly the pages 1 to totalPages, one each, ascending |
| Paging.ShowPaginationIff | app/categoria/components/ServicesList.tsx:40 | pagination is shown exactly when total exceeds one page of 12 |
| Paging.NeighboursInRange | app/categoria/components/Pagination.tsx:28-54 | for a page in range, an enabled previous or next button leads to a page that has a button |
| Paging.TwentyFiveItems | app/categoria/components/ServicesList.tsx:20 | 25 results give 3 pages and pagination is shown |
| Pagination.Render | app/categoria/components/Pagination.tsx:26-57 | previous is disabled exactly when currentPage is at most 1, next exactly when currentPage is at least totalPages; the buttons are 1 to totalPages ascending |
| Pagination.HandlePageChange | app/categoria/components/Pagination.tsx:20-24 | the new query sets `page` to the number chosen and keeps every other parameter; the path is `/categoria/` plus the `categoria` parameter, or `/categoria/null` without one |
| ServicesList.QueryOf | app/categoria/components/ServicesList.tsx:13-16 | the query holds `categoria` from the route unless the URL gives one, and every URL parameter unchanged |
| ServicesList.ViewOfShape | app/categoria/components/ServicesList.tsx:19-48 | the empty state shows exactly when no services come back; otherwise the cards are the returned services in order, with pagination exactly when there is more than one page |
| ServicesList.RenderFailsOnlyOnBadPrice | app/categoria/components/ServicesList.tsx:13-17 | with a route slug, the listing fails only when a price bound does not parse or a database query throws |
| CategoryContent.RenderShape | app/categoria/components/CategoryContent.tsx:17-73 | without `categoria` the page redirects home; otherwise the title is "Servicios en " plus the slug with only its first character upper-cased; pagination shows exactly when the fetched total exceeds 12 |
| CategoryContent.HandlePageChange | app/categoria/components/CategoryContent.tsx:29-33 | the target is `/categoria` with `page` set to the number chosen and every other parameter kept |
| CategoryPage.RenderShape | app/categoria/components/CategoryPage.tsx:22-42 | services are rendered in the given order; pagination is rendered exactly when total exceeds 12, with the current page and the page count |
| CategoryHeader.TitleAt | app/categoria/components/CategoryHeader.tsx:22-25 | the character-wise title has the slug's length |
| CategoryHeader.TitleAtWord | app/categoria/components/CategoryHeader.tsx:22-25 | a slug without hyphens is capitalised |
| CategoryHeader.TitleAtConcat | app/categoria/components/CategoryHeader.tsx:22-25 | a first word and a hyphen become the capitalised word and a space |
| CategoryHeader.JoinCapitalized | app/categoria/components/CategoryHeader.tsx:22-25 | joining capitalised words with spaces is the character-wise title of joining them with hyphens |
| CategoryHeader.TitleIsCharacterwise | app/categoria/components/CategoryHeader.tsx:22-25 | the split, capitalise and join title has the slug's length, has a space for each hyphen, and keeps every character that does not start a word |
| CategoryHeader.TitleWordCount | app/categoria/components/CategoryHeader.tsx:22-25 | the title has one word more than the slug has hyphens, empty pieces included |
| CategoryHeader.FilterPanel.constructor | app/categoria/components/CategoryHeader.tsx:13 | the filter panel starts closed |
| CategoryHeader.FilterPanel.Toggle | app/categoria/components/CategoryHeader.tsx:29 | a click flips the panel |
| CategoryHeader.ToggleTwice | app/categoria/components/CategoryHeader.tsx:29 | two clicks leave the panel as it was |
| Middleware.SplitOldRoute | middleware.ts:9 | splitting `/categoria/<rest>` on "/" gives "", "categoria" and then the pieces of rest |
| Middleware.Handle | middleware.ts:4-22 | only paths under `/categoria/` redirect, and only those the matcher admits; the target is `/categoria` with the query kept and `categoria` set to the first segment after the prefix, possibly empty, deeper segments dropped; a segment without `/` becomes `categoria` whole |
| Middleware.TargetPassesThrough | middleware.ts:24-26 | the redirect target `/categoria` is matched but passes through, so the redirect does not loop |
| ServiceFilters.AvailableCities | components/ServiceFilters.tsx:121-124 | no cities for an empty, "todos" or unknown department, else that department's list |
| ServiceFilters.DepartmentsAreCityKeys | components/ServiceFilters.tsx:17-112 | the 19 departments are exactly the keys of the city table |
| ServiceFilters.CityListsNonEmpty | components/ServiceFilters.tsx:39-112 | every department of the city table is named and lists at least one city |
| ServiceFilters.EveryDepartmentHasCities | components/ServiceFilters.tsx:17-112 | every listed department has a non-empty city list, so the city selector is enabled for each |
| ServiceFilters.HandleSubmit | components/ServiceFilters.tsx:117-145 | the target is `/categoria/` plus the route's `slug`, or `/categoria/undefined` without one, and the query is the current one without `categoria`, updated field by field by the form |
| ServiceFilters.SubmitWithoutSlug | components/ServiceFilters.tsx:117-144 | on `/categoria`, where the route has no `slug`, a submit ends, after the middleware's redirect, on `/categoria` with `categoria` set to "undefined" |
| ServiceFilters.HandleSubmitIntended | components/ServiceFilters.tsx:126-145 | the submit with the browsed category (the route's slug, else the `categoria` parameter) in the path, or `/categoria` without one; the same query |
| ServiceFilters.SubmitKeepsCategory | components/ServiceFilters.tsx:132-144 | with the intended path, a submit on `/categoria` ends with the browsed category kept in `categoria`, and without a category it is not redirected |
| ServiceFilters.ApplyFormUntouched | components/ServiceFilters.tsx:135-141 | a key that is not a form field, such as `page`, keeps its presence and value |
| ServiceFilters.ApplyFormLast | components/ServiceFilters.tsx:135-141 | a form field is set to its value when that is non-empty and not a sentinel, and deleted otherwise |
| ServiceFilters.SubmitKeepsOthers | components/ServiceFilters.tsx:130-141 | on submit, every parameter other than `categoria` and the form fields is carried over unchanged |
| ServiceFilters.SubmitDropsCategoria | components/ServiceFilters.tsx:133-144 | `categoria` is never in the submitted query |
| ServiceFilters.HandleDepartamentoChange | components/ServiceFilters.tsx:150-168 | the target is `/categoria/` plus the route's `slug`, or `/categoria/undefined` without one; `departamento` is set for a real value and deleted for "" or "todos"; `ciudad` and `categoria` are always deleted; everything else is kept |
| ServiceFilters.DepartmentChangeWithoutSlug | components/ServiceFilters.tsx:117-167 | on `/categoria` a department change ends, after the redirect, with `categoria` set to "undefined" and no `ciudad` |
| ServiceFilters.HandleDepartamentoChangeIntended | components/ServiceFilters.tsx:150-168 | the department change with the browsed category in the path; the same query updates |
| ServiceFilters.DepartmentChangeKeepsCategory | components/ServiceFilters.tsx:153-167 | with the intended path, a department change on `/categoria` keeps the browsed category and clears the city |
| Publish.Parse | app/publicar/actions.ts:7-36 | the form is accepted exactly when every schema rule holds |
| Publish.ContactoPorRule | app/publicar/actions.ts:39-41 | without a phone the contact is "email"; with one it is the submitted value, or "email" when none was given; it is always one of the three options |
| Publish.NewRecordFields | app/publicar/actions.ts:44-67 | the new row keeps the images as given, the title (10 to 100 characters), the provider (3 to 50), the email as owner, the category id, the WhatsApp flag, the price and the contact rule |
| Publish.CreateService | app/publicar/actions.ts:31-86 | success exactly when the form is valid, the category exists, the insert and the index write succeed; any failure gives "Failed to create service"; a successful insert appends exactly one row, ensures one user with the email without duplicating it, and adds the index document only when its write succeeds; otherwise nothing changes |
| PublishClient.PrecioToSend | app/publicar/client.tsx:146 | an empty price is sent as undefined, any other as `Number(input)` |
| PublishClient.PrecioDigits | app/publicar/client.tsx:146 | a typed natural number is sent as that number |
| PublishClient.PublishForm.constructor | app/publicar/client.tsx:78-92 | the form starts with no images, nothing selected, `whatsapp` off and contact by email |
| PublishClient.PublishForm.HandleImageUpload | app/publicar/client.tsx:94-123 | a selection that would pass ten files is refused with nothing changed; otherwise files and previews are appended in order, URLs only on a successful upload, and uploading is over afterwards; at most ten files, each with its preview |
| PublishClient.PublishForm.RemoveImage | app/publicar/client.tsx:125-134 | the same position leaves each of the three lists, the rest in order; an out-of-range index changes nothing |
| PublishClient.PublishForm.ChooseDepartamento | app/publicar/client.tsx:369-373 | choosing a department records it and clears the city |
| PublishClient.PublishForm.CityOptions | app/publicar/client.tsx:400-418 | no cities before a department is chosen, that department's list after |
| PublishClient.PublishForm.OnSubmit | app/publicar/client.tsx:136-162 | the form goes home exactly when the server action succeeds with the converted price; the store then holds the new row and its owner, plus the index document when that write succeeds; when the form is invalid or the insert fails the store is unchanged |
| CategoryClient.FiltradosSpec | components/category-client.tsx:133-162 | the result holds exactly the input services that satisfy all seven conditions, is order-preserving (it distributes over concatenation) and keeps a list whose every member passes |
| CategoryClient.SearchCondition | components/category-client.tsx:134-138 | the search matches when the lower-cased query occurs in the lower-cased title or description; an empty query matches all |
| CategoryClient.PriceBounds | components/category-client.tsx:144-149 | a set bound excludes a service with no price; on decimal strings the bounds are inclusive integer comparisons |
| CategoryClient.NeutralCriteria | components/category-client.tsx:139-151 | with the sentinels, empty bounds, no currency and images not required, every service passes |
| CategoryClient.ImageSource | components/category-client.tsx:93-94 | the card shows the error image after a load error, else the image when there is one, else `NO_IMAGE` |
| CategoryClient.WaLinkNumber | components/category-client.tsx:328-332 | the link always starts with `https://wa.me/`; its number is empty without WhatsApp and otherwise the phone with all white space removed |
| CategoryClient.CategoryView.constructor | components/category-client.tsx:123-130 | the filters start neutral with currency "UYU" |
| CategoryClient.CategoryView.HandleDepartamentoChange | components/category-client.tsx:165-168 | changing department resets the city to the all-cities sentinel and changes no other criterion |
| CategoryClient.FewDepartmentsHaveCities | components/category-client.tsx:27-51 | this component's tables list 10 departments, and some of them, such as Colonia, have no cities |
| Consts.IconMap | utils/const.ts:18-29 | a name resolves to an icon exactly when it is one of the ten keys, and to the icon of that name |
| Consts.IconMapDomain | utils/const.ts:18-29 | the table has ten distinct keys and every icon is found under its own name |
| Consts.FirstImageOr | app/search/page.tsx:112 | the first image when it is non-empty, and the fallback when there is none or it is empty |
| Db.SlugMap | prisma/seed.ts:133-136 | the slug map has a key exactly for each category's slug |
| Db.SlugMapDistinct | fill-services.ts:178-181 | with distinct slugs, each slug maps to its own category's id |
| Db.Store.AddUser | prisma/seed.ts:117-121 | the user set gains the email; new exactly when it was absent; nothing else changes |
| Db.Store.AddCategory | prisma/seed.ts:124-130 | a category with a fresh slug and id is stored under its slug, otherwise refused; nothing else changes |
| Db.Store.Insert | app/publicar/actions.ts:48-73 | the row is appended with its position as id, and its owner is connected or created |
| Db.Store.SaveObject | app/publicar/actions.ts:76-79 | the document is appended to the index and nothing else changes |
| FillServices.DedupByEmail | fill-services.ts:157-170 | the loop keeps exactly the services that have no email or are the first with theirs, ignoring case, in input order |
| FillServices.DedupByEmailSpec | fill-services.ts:157-170 | services with no email are all kept, in order; kept emails are pairwise distinct ignoring case; every email of the input is represented |
| FillServices.DedupByEmailKeepsFirst | fill-services.ts:157-170 | the kept services are exactly those at the positions with no email or no earlier service of the same email ignoring case, in input order |
| Seqs.KeepFirstByIsFirsts | fill-services.ts:157-170 | the keep-first scan with a seen set equals the independent definition: the positions whose element has no key or a key that is neither seen nor earlier, in order |
| Seqs.DedupSpec | generate-seo-files.ts:178-180 | `new Set` keeps each element once: exactly the positions whose element does not occur earlier, in input order |
| FillServices.DuplicateDropped | fill-services.ts:161-168 | a later service whose email differs only in case is dropped |
| FillServices.MakeBatches | fill-services.ts:184-188 | batches are consecutive slices of 10, the last possibly shorter, none empty, whose concatenation is the input |
| FillServices.ServiceRecordFields | fill-services.ts:105-119 | title and provider are the name; the description defaults to ""; WhatsApp exactly when a WhatsApp value is present; 0 or 1 images; contact by email; no price or place; the owner defaults to "test@example.com" |
| FillServices.ProcessService | fill-services.ts:83-147 | one service's outcome: a record exactly when the confidence, the slug and the insert allow it, built from that service and its category id; the store gains exactly that row and its owner |
| FillServices.ProcessServicesBatch | fill-services.ts:77-148 | one result per service in order; a result is present exactly when the confidence reaches 60 percent, the slug is known and the insert succeeds, and it is that service's record; exactly the present results are appended to the store |
| FillServices.SuccessCountIsInserted | fill-services.ts:197 | the success count equals the number of inserted services |
| Seed.TablesAgree | prisma/seed.ts:5-78 | the 10 category slugs are distinct, every icon is a key of the icon table, and the departments are exactly the keys of a city table with non-empty lists |
| Seed.DepartmentCities | prisma/seed.ts:58-78 | every listed department has cities |
| Seed.CreatedSpec | prisma/seed.ts:124-130 | every stored category is one of the created ones, under its slug |
| Seed.CategoriesCreated | prisma/seed.ts:124-130 | after all creates, each category is stored under its slug |
| Seed.CreatedKeeps | prisma/seed.ts:124-130 | later creates do not overwrite an earlier category |
| Seed.SlugsAndIds | prisma/seed.ts:133-136 | the slug map sends each slug to its category's id, which is a stored category's id |
| Seed.PhoneShape | prisma/seed.ts:167-169 | the phone is "098" followed by exactly six digits |
| Seed.RandomDraw | prisma/seed.ts:141-172 | the random choices fall in their ranges: a listed category, a city of the chosen department, a price in 500 to 5499, six phone digits |
| Seed.SeedImage | prisma/seed.ts:172 | the chosen image is one of the four fixed images |
| Seed.RowIsSeeded | prisma/seed.ts:152-173 | a row built from in-range choices has the seeded shape |
| Seed.CreateCategories | prisma/seed.ts:124-130 | the ten categories are created, in order, and stored by slug; users, services and the index are unchanged |
| Seed.SeedService | prisma/seed.ts:139-175 | one row is appended with the seeded shape and the earlier rows are kept; categories, users and the index are unchanged |
| Seed.SeedServices | prisma/seed.ts:138-176 | the loop inserts exactly 30 rows, row k having the seeded shape for position k, and leaves the users, the categories and the index as they were |
| Seed.Seed | prisma/seed.ts:115-176 | the index untouched, one test user, the ten categories, and exactly 30 services, each owned by the test user, in a seeded category, priced in 500 to 5499 in UYU or USD, with a city of its department, a phone "098" plus six digits and 0 or 1 fixed images |
| Landing.FilteredSpec | app/page.tsx:64-66 | it holds exactly the categories whose name contains the query, ignoring case; it is empty exactly when none does; filtering distributes over concatenation and keeps or drops each single category, so the matches keep their original order; an empty query keeps the whole list |
| Landing.SuggestionPanel | app/page.tsx:107-136 | the panel is shown exactly while focused; it lists the matches exactly when the query is non-empty and some name contains it, and otherwise the first five categories |
| Landing.CategoriesAgree | app/page.tsx:7-58 | ten categories with pairwise distinct slugs and links, the same names, slugs and icon names as the seeded ones |
| Landing.LandingPage.constructor | app/page.tsx:61-62 | the search box starts unfocused and empty |
| Landing.LandingPage.Focus | app/page.tsx:92 | focusing shows the panel and keeps the query |
| Landing.LandingPage.Blur | app/page.tsx:93 | leaving the box hides the panel and keeps the query |
| Landing.LandingPage.Change | app/page.tsx:95 | typing replaces the query and keeps the focus |
| ServiceClient.ImageSource | components/service-client.tsx:48 | the error image after a load error, else the source when present and non-empty, else `NO_IMAGE` |
| ServiceClient.ImageAt | components/service-client.tsx:116 | the selected image, undefined past the end |
| ServiceClient.MainImageSpec | components/service-client.tsx:115-118 | the large image is the selected image or a fallback; a service without images shows `NO_IMAGE` |
| ServiceClient.ContactLinksSpec | components/service-client.tsx:171-209 | WhatsApp shows exactly with WhatsApp and a phone, call exactly with a phone, email always; both numbers are the phone with all white space removed |
| ServiceClient.PriceLine | components/service-client.tsx:149-153 | nothing for a missing price, the bare text "0" for a price of 0, and otherwise the price line with the price and its currency |
| ServiceClient.ServicePage.constructor | components/service-client.tsx:47-66 | the selection starts at 0 and no image has failed |
| ServiceClient.ServicePage.Select | components/service-client.tsx:124 | clicking thumbnail i selects i and keeps every error flag, that of the main image included |
| ServiceClient.ServicePage.OnMainError | components/service-client.tsx:46-60 | a load error of the main image sets its flag and nothing else |
| ServiceClient.ServicePage.OnThumbnailError | components/service-client.tsx:121-135 | a load error of a thumbnail sets that thumbnail's flag alone |
| ServiceClient.ServicePage.MainImage | components/service-client.tsx:115-118 | after a load error the error image, whatever is selected; before it the selected image, or `NO_IMAGE` for a missing or empty one |
| ServiceClient.ServicePage.Thumbnails | components/service-client.tsx:121-135 | one thumbnail per image, in order, each its image or its own error image, highlighted exactly when selected |
| ServiceClient.OpenPage | components/service-client.tsx:66-135 | a fresh page shows the first image, or `NO_IMAGE` without images, and highlights the first thumbnail alone |
| ServiceClient.ErrorOutlivesSelection | components/service-client.tsx:115-128 | once the main image has failed, clicking any thumbnail highlights it but the main image stays the error image |
| ServiceGallery.Gallery.constructor | components/service-gallery.tsx:15 | the selection starts at 0 |
| ServiceGallery.Gallery.Select | components/service-gallery.tsx:35 | clicking thumbnail i selects i |
| ServiceGallery.Gallery.MainImage | components/service-gallery.tsx:16 | `NO_IMAGE` for no images, else the selected image |
| ServiceGallery.Gallery.Thumbnails | components/service-gallery.tsx:30-50 | thumbnails only for more than one image, one per image, the selected one marked |
| ServiceGallery.OpenAndClick | components/service-gallery.tsx:14-55 | the gallery opens on the first image; a click shows that image and highlights that thumbnail alone |
| ServiceHeader.SearchBox.constructor | components/service-header.tsx:14-17 | the query starts as the initial query, or "" |
| ServiceHeader.SearchBox.Change | components/service-header.tsx:44 | typing replaces the query |
| ServiceHeader.SearchBox.Submit | components/service-header.tsx:19-24 | navigates exactly when the query is not all white space, to `/search?q=` plus the encoded trimmed query |
| Search.Requests | app/search/page.tsx:16-34 | no index request for an empty query; otherwise one request to each index with the trimmed query, for 20 services and 5 categories |
| Search.BlankQueryIsSent | app/search/page.tsx:17-19 | a query made only of white space is sent to both indexes as "" |
| Search.SearchResults | app/search/page.tsx:16-40 | an empty query has no results; otherwise each list is a prefix of its index's hits, at most 20 and 5 |
| Search.StyleEmIdentity | app/search/page.tsx:82-85 | a highlight without `<em>` is unchanged |
| Search.StyleEmPrefix | app/search/page.tsx:82-85 | text before the first `<` is unchanged |
| Search.StyleEmJoin | app/search/page.tsx:82-85 | every `<em>` is replaced by the styled tag and the text between them is unchanged |
| Search.RenderSpec | app/search/page.tsx:42-216 | the prompt shows exactly for an absent or empty query; otherwise the heading shows exactly when some result exists, the no-results panel exactly when none does, and each service card links to its page with its first image or `NO_IMAGE` |
| Search.CardFields | app/search/page.tsx:72-172 | each field takes its highlight when there is one and the raw value otherwise; an unknown icon renders none; a missing price renders nothing, a price of 0 the bare text "0", any other price its line with the currency |
| Sitemap.RouteFromFile | generate-seo-files.ts:61-81 | computes the route of the file (split, drop the file name and route groups, pop a trailing "index", join), equal to `Route`, which always starts with "/" |
| Sitemap.RouteOfSegments | generate-seo-files.ts:63-80 | the route drops the file name and is "/" plus the kept directories joined with "/" |
| Sitemap.RouteGroupIgnored | generate-seo-files.ts:69-71 | a route group segment makes no difference wherever it appears |
| Sitemap.KeptIndex | generate-seo-files.ts:74-76 | exactly one trailing `index` is removed |
| Sitemap.TopLevelPage | generate-seo-files.ts:79-80 | a page under route groups only gives "/" |
| Sitemap.CloseIn | generate-seo-files.ts:110 | a closing bracket appears before any line break |
| Sitemap.OpensAtSpec | generate-seo-files.ts:110 | the pattern matches at a position exactly when a bracket pair with content starts there |
| Sitemap.IsDynamicRouteSpec | generate-seo-files.ts:109-111 | a route is dynamic exactly when it holds "[", at least one character, then "]" on one line |
| Sitemap.ExpandDynamicRoutes | generate-seo-files.ts:118-135 | the loop computes the expansion of the routes |
| Sitemap.ExpandConcat | generate-seo-files.ts:118-135 | expansion works route by route, so it distributes over concatenation |
| Sitemap.ExpandSpec | generate-seo-files.ts:120-132 | a static route is kept in place, a dynamic one with a resolver is replaced by its list, one without is dropped |
| Sitemap.ExpandStatic | generate-seo-files.ts:130-132 | a list of static routes expands to itself |
| Sitemap.ExpandKeepsStatic | generate-seo-files.ts:130-132 | every static route survives expansion |
| Sitemap.AllRoutesSpec | generate-seo-files.ts:178-180 | the final routes are exactly the discovered and the additional ones, without duplicates: the positions of the concatenation whose route does not occur earlier, in order, so the discovered come first |
| Sitemap.EntryOf | generate-seo-files.ts:186-191 | the entry's `loc` is the base URL for "/" and base URL plus route otherwise; priority defaults to 0.5 and changefreq to "monthly" |
| Sitemap.Resolve | generate-seo-files.ts:150 | each of the eight options, when given, overrides its default, and each absent one takes the default; an empty configuration is the default one |
| Sitemap.DefaultEntries | generate-seo-files.ts:20-36 | under the default configuration the home page is daily with priority 1.0 and an unlisted page monthly with 0.5 |
| Sitemap.SitemapListsStaticPages | generate-seo-files.ts:164-202 | every static page file has its entry in the sitemap |
| JsNumbers.OrOne | app/categoria/components/ServicesList.tsx:19 | `n \|\| 1` is n for a non-zero number and 1 for 0 or NaN |
| JsNumbers.NumberOfNatToString | app/categoria/components/Pagination.tsx:22 | printing a natural number and reading it back with `Number` is the identity |
| JsNumbers.NumberOfIntToString | app/categoria/components/Pagination.tsx:22 | printing an integer and reading it back with `Number` is the identity |
| JsNumbers.ParseIntOnDigits | components/category-client.tsx:146 | on a decimal string `parseInt` and `Number` agree with its value |
| Text.TrimSpec | app/search/page.tsx:19 | `trim()` returns a contiguous part of the text, cut only at white space, that neither starts nor ends with white space |
| Text.TrimEmptyIff | components/service-header.tsx:21 | a text trims to "" exactly when it is all white space |
| Text.RemoveWhitespaceKeeps | components/service-client.tsx:177-179 | removing white space leaves none and keeps every other character in order |

## Findings

| source | as written | input that shows it | evidently intended | confidence | as-written member | corrected member |
|---|---|---|---|---|---|---|
| components/ServiceFilters.tsx:117-144 | `handleSubmit` pushes `/categoria/${useParams().slug}`, but the form is only rendered on `/categoria`, which has no `slug` segment, so the path is `/categoria/undefined` and the middleware sets `categoria=undefined` | a submit on `/categoria?categoria=salud-belleza` | the browsed category stays selected, as the comment on deleting `categoria` says ("it is in the URL") | high, not executed | ServiceFilters.SubmitWithoutSlug | ServiceFilters.SubmitKeepsCategory |
| components/ServiceFilters.tsx:117-167 | `handleDepartamentoChange` pushes the same `/categoria/undefined` path | choosing "Rocha" on `/categoria?categoria=salud-belleza` | the browsed category stays selected while the department changes | high, not executed | ServiceFilters.DepartmentChangeWithoutSlug | ServiceFilters.DepartmentChangeKeepsCategory |

## Left out

- Prisma, Algolia, uploadthing, Anthropic and `fs` are not modelled. They are external services. The store and the index are the in-memory `Db.Store`, and each call's outcome is a parameter.
- `findMany` without `orderBy` is taken to return rows in store order. The database does not promise an order.
- `getServices` treats a price bound that is not a number (NaN) as a failed query. This is an assumption about how Prisma treats a NaN filter value.
- `getPageFiles`, the directory walk, is out. It is file-system I/O, so the page files are given as a list and only the file-name test is modelled.
- `lastmod` (today's date), the XML and robots serialisation beyond `RobotsTxt`, and the file writes are out. They are clock and file I/O.
- Sitemap priorities are `real` values that are copied but never computed with.
- `Sitemap.Resolve`: a partial configuration that spells out a key as `undefined` is not modelled. An absent key stands for it.
- `ServiceFilters.AvailableCities` and `Consts.IconMap`: the JavaScript object tables are modelled as maps without the keys objects inherit from `Object.prototype`. In the source a URL value such as `constructor` or `toString` finds an inherited function. For `ciudades` that value is truthy and not an array, so `availableCities.map` throws and the page fails. For the icon table it hands React a function that is not an icon. In the model both lookups simply miss.
- `Publish.Parse`: the zod `.min`/`.max` lengths count UTF-16 code units, but the model counts characters (`|s|`). A title with characters outside the Basic Multilingual Plane, such as five emoji, is 10 units long and accepted by zod, yet is 5 characters and rejected here.
- `JsNumbers.ParseInt`: the `0x`/`0X` prefix is not modelled. `parseInt("0x1A")` is 26 in JavaScript, but here it is `Some(0)`, the value of the leading "0".
- `JsNumbers.Number` covers only optional white space, a sign and decimal digits; fractions, exponents, hexadecimal and `Infinity` are NaN here, to keep the number grammar small. These inputs can occur and are not modelled: a `type="number"` price field accepts `1e3`, and a hand-edited URL can carry `?page=2.5`. In the source `Number("1e3")` is 1000 and `Number("2.5")` is 2.5; here both are NaN. The members below inherit this.
- JsNumbers.Number: JavaScript numbers are doubles, and the model's numbers are unbounded integers. A digit string above 2^53 is rounded in the source, so `Number("9007199254740993")` is 9007199254740992, and a value above about 1.8 × 10^308 (any string of 310 or more digits) is `Infinity`; here both keep their exact value.
- JsNumbers.ParseInt: the same rounding and overflow to `Infinity` apply to `parseInt` on long digit strings, and are not modelled.
- JsNumbers.ParseIntOnDigits: states that `parseInt` and `Number` give the exact decimal value, which the source only guarantees below 2^53. Price filters (`CategoryClient.PriceBounds`, `Listing.BuildWhere`) and page numbers (`Listing.EffectivePage`, `Paging.CurrentPageValue`) inherit this for huge values.
- Publish.Parse: a price sent as `Number("1e3")` is refused here, where zod accepts 1000 and the service is saved.
- PublishClient.PrecioToSend: a typed `1e3` is sent as `Price(None)` here, where the source sends 1000.
- Listing.BuildWhere: `precioMin=1e3` makes the where clause fail here, where the source filters with `gte: 1000`.
- Listing.EffectivePage: `?page=2.5` is page 1 here, where the source uses page 2.5 and skips 18 rows.
- Paging.CurrentPageValue: `?page=2.5` is 1 here, where the source shows 2.5 as the current page.
- `Text.Lower`, `Text.UpperChar` and `Text.IsWhitespace` are ASCII plus a few Unicode spaces. Full Unicode case mapping and the full Unicode white-space set are out.
- `encodeURIComponent` and the zod email regex are parameters. They are library code.
- `URLSearchParams` is a map, so repeated keys and key order are not modelled.
- Concurrency and timing are out:
  - `Promise.all` is modelled sequentially, both in `getServices` and over the category creates in the seed script;
  - the 200 ms blur delay and the 1.5 s rate-limit delays are dropped;
  - SWR fetching is out;
  - stale React closures are out: `handleImageUpload` is one atomic step.
- `FillServices.ProcessServicesBatch`: confidence is an integer percent (0.6 is 60) instead of a float. A missing confidence passes, because `undefined < 0.6` is false. The language-model call is a parameter.
- `Seed.Seed` requires an empty store. It does not model re-seeding a populated database. The `contactoPor` value of the seeded rows is a parameter, because the schema's column default is not part of this model.
- `Math.random` is replaced by nondeterministic choices within the scaled ranges. Distributions are out.
- JSX rendering, styling, `toLocaleString` and router navigation are out, except for the target strings they compute.
- `ServiceClient.ServicePage.Select` and `ServiceGallery.Gallery.Select` require an index below the number of images, because clicks only come from rendered thumbnails.
- `seed-algolia.ts`, `lib/algolia.ts`, `lib/uploadthing.ts`, `next.config.js`, `app/publicar/page.tsx`, `app/layout.tsx`, `app/categoria/types.ts` and `app/categoria/hooks/useServices.ts` are not part of this model. They are wrappers, configuration or types; only the `useServices` default total of 0 is used.
