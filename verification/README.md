# Warehouse replenishment core, modelled in Dafny

This project models the logic of a Spring clothing-warehouse application:

- **stock reconciliation.** Units that arrive from a distribution center are merged into the warehouse's item table by create-or-increment on the exact (brand, name) pair.
- **replenishment orchestration.** The closest center that holds an item is found, the units are requested from it, and then they are reconciled.
- **catalog aggregation.** In-stock quantities are summed per brand and item name over every center's listing.
- **the center projections.** These are the center list and the center detail, with their `itemCount`.
- **the `Item` entity.** This covers its constructors, setters, `@PreUpdate` hook and bean-validation constraints.
- **the data seeder.** It fills an empty table with twenty sample items.
- **the login and registration pages of the authentication controller.**

Every network exchange becomes an input of the operation that makes it: the status and parsed body of each HTTP response. The JSON documents become typed values whose fields are `Option`s, so a missing field is `None`.

The item repository is a class, `ItemStore.Warehouse`. It holds the table as a sequence of rows with dense generated ids. `FindByBrandAndName` hands out fresh entities. `Save` merges an entity into the table with JPA's rules:

- a null id is inserted under the next id;
- a known id is written back only when a field changed, after `@PreUpdate`;
- an insert or update that breaks the validation constraints throws.

The entity's `LocalDateTime.now()` timestamps are ghost counters from a ghost `Clock`. Prices are integer cents. Java `int` arithmetic wraps at 32 bits (`Common.AddInt32`).

Modules:

| module | file | what it holds |
|---|---|---|
| `Common` | common.dfy | `Option`, 32-bit wrap-around, Java `String.trim` and the blank test |
| `ItemEntity` | item.dfy | the `Item` class, its field values `ItemData`, and the validation constraints |
| `ItemStore` | store.dfy | the repository: rows, `findByBrandAndName`, `count`, `save` |
| `CenterData` | center.dfy | typed center snapshots and the two center projections |
| `Reconciler` | reconcile.dfy | `addItemToWarehouse`, `addItemsToWarehouse` and their specification `Reconciled` |
| `Replenishment` | replenish.dfy | `requestItemFromClosestCenter[WithQuantity]` |
| `Catalog` | catalog.dfy | `getAvailableItemsByBrand` and its specification `Tallies` |
| `DataInit` | seed.dfy | `DataInitializer.run` |
| `Auth` | auth.dfy | `showLoginForm` and `registerUser` |

Source cells below are paths inside the repository's source tree.

## Model

| member | source | states |
|---|---|---|
| Common.Wrap32 | src/main/java/com/arjencode/project/service/DistributionCenterIntegrationService.java:318 | the result is congruent to the input modulo 2^32 and equals it when the input fits in a Java `int` |
| Common.AddInt32 | src/main/java/com/arjencode/project/service/DistributionCenterIntegrationService.java:318 | Java `int` addition: the exact sum when it fits, otherwise the sum shifted by 2^32 (wrap-around in either direction) |
| Common.TrimStartSpec | src/main/java/com/arjencode/project/controller/AuthController.java:42 | the leading trim is a suffix of the string, everything cut off is at most U+0020, and it starts with a character above U+0020 unless it is empty |
| Common.TrimEndSpec | src/main/java/com/arjencode/project/controller/AuthController.java:42 | the trailing trim is a prefix, everything cut off is at most U+0020, and it ends with a character above U+0020 unless it is empty |
| Common.TrimEmptyIff | src/main/java/com/arjencode/project/controller/AuthController.java:42 | `trim()` is empty exactly when every character is at most U+0020 |
| Common.BlankIsTrimEmpty | src/main/java/com/arjencode/project/controller/AuthController.java:42 | the model's blank test is exactly Java's `s == null \|\| s.trim().isEmpty()` |
| ItemEntity.Violations | src/main/java/com/arjencode/project/model/Item.java:19-43 | no violation exactly when the entity is valid (non-blank name, brand and category, price present and > 0, year present, quantity present and >= 0); a blank name, a non-positive price and a negative quantity are each reported exactly when they occur |
| ItemEntity.Item.constructor | src/main/java/com/arjencode/project/model/Item.java:52-55 | no id, every field null except quantity 0, and `createdAt` and `updatedAt` taken in that order from two successive clock readings |
| ItemEntity.Item.WithFields | src/main/java/com/arjencode/project/model/Item.java:58-66 | stores name, brand, category, price and year exactly as given, with quantity 0, no id and fresh timestamps |
| ItemEntity.Item.WithQuantity | src/main/java/com/arjencode/project/model/Item.java:69-77 | stores the given quantity along with the five other fields, with no id and fresh timestamps |
| ItemEntity.Item.SetId | src/main/java/com/arjencode/project/model/Item.java:84-86 | sets `id` and may change no other field |
| ItemEntity.Item.SetName | src/main/java/com/arjencode/project/model/Item.java:92-94 | sets `name` and may change no other field |
| ItemEntity.Item.SetBrand | src/main/java/com/arjencode/project/model/Item.java:100-102 | sets `brand` and may change no other field |
| ItemEntity.Item.SetCategory | src/main/java/com/arjencode/project/model/Item.java:108-110 | sets `category` and may change no other field |
| ItemEntity.Item.SetPrice | src/main/java/com/arjencode/project/model/Item.java:116-118 | sets `price` and may change no other field |
| ItemEntity.Item.SetYear | src/main/java/com/arjencode/project/model/Item.java:124-126 | sets `year` and may change no other field |
| ItemEntity.Item.SetQuantity | src/main/java/com/arjencode/project/model/Item.java:132-134 | sets `quantity` and may change no other field |
| ItemEntity.Item.SetCreatedAt | src/main/java/com/arjencode/project/model/Item.java:140-142 | sets `createdAt` and may change no other field |
| ItemEntity.Item.SetUpdatedAt | src/main/java/com/arjencode/project/model/Item.java:148-150 | sets `updatedAt` and may change no other field |
| ItemEntity.Item.PreUpdate | src/main/java/com/arjencode/project/model/Item.java:152-155 | `updatedAt` becomes the new clock reading; it may change nothing else, so `createdAt` is untouched |
| ItemStore.MatchIndices | src/main/java/com/arjencode/project/repository/ItemRepository.java:29 | the positions of exactly the rows with that brand and name, in ascending table order |
| ItemStore.FirstMatch | src/main/java/com/arjencode/project/service/DistributionCenterIntegrationService.java:144-145 | none exactly when no row has the pair; otherwise a matching row with no matching row before it |
| ItemStore.FirstOfMatches | src/main/java/com/arjencode/project/service/DistributionCenterIntegrationService.java:312-313 | `findByBrandAndName(...).stream().findFirst()` is the first row that matches: the head of the match list is `FirstMatch` |
| ItemStore.SavePreservesValidity | src/main/java/com/arjencode/project/model/Item.java:19-43 | a save never stores a row that breaks the constraints and never reuses an id; it succeeds exactly when the fields are valid or an unchanged known row is saved |
| ItemStore.Warehouse.constructor | src/main/java/com/arjencode/project/repository/ItemRepository.java:14 | an empty table whose first generated id is 1 |
| ItemStore.Warehouse.Count | src/main/java/com/arjencode/project/config/DataInitializer.java:24 | `count()` is the number of rows |
| ItemStore.Warehouse.Load | src/main/java/com/arjencode/project/repository/ItemRepository.java:29 | a fresh entity that mirrors the row's id, fields and timestamps |
| ItemStore.Warehouse.FindByBrandAndName | src/main/java/com/arjencode/project/repository/ItemRepository.java:29 | one fresh entity per matching row, in table order, each a copy of its row |
| ItemStore.Warehouse.Save | src/main/java/com/arjencode/project/repository/ItemRepository.java:14 | the new table is `SaveRows` of the old one. A new entity receives the generated id. A changed known entity gets `@PreUpdate` and a later `updatedAt`. The entity's fields and `createdAt` are untouched, and the table invariant is kept |
| CenterData.GetAllDistributionCenters | src/main/java/com/arjencode/project/service/DistributionCenterIntegrationService.java:54-95 | an empty list on a non-200 answer or a center missing a read field; otherwise one summary per center, in order, with its id and name and `itemCount` = number of items (0 when absent) |
| CenterData.GetDistributionCenterById | src/main/java/com/arjencode/project/service/DistributionCenterIntegrationService.java:173-219 | a result exactly when the answer is 200 and the center and every item have the fields read; then every item projected in order and `itemCount` = number of items (0 when absent) |
| Reconciler.ScanStop | src/main/java/com/arjencode/project/service/DistributionCenterIntegrationService.java:332-341 | the position where the attribute loop breaks or throws: the first entry that matches exactly or lacks a field it reads, none when there is no such entry |
| Reconciler.ResolveWellFormed | src/main/java/com/arjencode/project/service/DistributionCenterIntegrationService.java:328-342 | on a snapshot whose entries are complete, the attributes are those of the first exact (brand, name) match, or "Unknown", 1.00 and 2023 when nothing matches |
| Reconciler.ResolveAttributes | src/main/java/com/arjencode/project/service/DistributionCenterIntegrationService.java:328-342 | the attribute loop with its `break` computes `Resolve` |
| Reconciler.Reconciled | src/main/java/com/arjencode/project/service/DistributionCenterIntegrationService.java:309-356 | whenever reconciliation fails, the table and the next id are as they were |
| Reconciler.ReconciledShape | src/main/java/com/arjencode/project/service/DistributionCenterIntegrationService.java:312-348 | with a match, only the first matching row's quantity may change and no row is added; without one, either nothing changes (exactly on failure) or exactly one row, the new record, is appended |
| Reconciler.ReconcilePreservesInvariants | src/main/java/com/arjencode/project/service/DistributionCenterIntegrationService.java:309-356 | the table stays valid, ids stay distinct and below the next id, and the next id never decreases |
| Reconciler.IncrementFirstMatch | src/main/java/com/arjencode/project/service/DistributionCenterIntegrationService.java:315-319 | with a match and an in-range sum, the first matching row's quantity grows by exactly `quantity`, no record is created and every other row is unchanged |
| Reconciler.UpdateSaved | src/main/java/com/arjencode/project/service/DistributionCenterIntegrationService.java:319 | saving a loaded row's id with valid fields overwrites exactly that row and succeeds |
| Reconciler.IncrementOverflowRefused | src/main/java/com/arjencode/project/service/DistributionCenterIntegrationService.java:318-319 | an increment whose sum is negative or beyond `int` fails and leaves the table unchanged |
| Reconciler.CreateWhenAbsent | src/main/java/com/arjencode/project/service/DistributionCenterIntegrationService.java:321-348 | without a match, it succeeds exactly when the new record is valid, and then exactly one record is appended with that name, brand, attributes and quantity under the next id; otherwise nothing is stored |
| Reconciler.UnitCreateAlwaysRefused | src/main/java/com/arjencode/project/service/DistributionCenterIntegrationService.java:153-162 | the single-unit create as written (price 0.00) never stores anything |
| Reconciler.CorrectedUnitCreate | src/main/java/com/arjencode/project/service/DistributionCenterIntegrationService.java:153-162 | with price 1.00, the single-unit create appends exactly one record holding one unit for any non-blank brand and name |
| Reconciler.ReconcileKeepsPairCounts | src/main/java/com/arjencode/project/service/DistributionCenterIntegrationService.java:309-356 | a pair with at most one row keeps at most one, and every other pair keeps exactly its number of rows |
| Reconciler.IncrementKeepsPairCounts | src/main/java/com/arjencode/project/service/DistributionCenterIntegrationService.java:315-319 | the increment branch keeps the number of rows of every pair |
| Reconciler.IncrementRows | src/main/java/com/arjencode/project/service/DistributionCenterIntegrationService.java:315-319 | the increment branch either leaves the table as it was or writes the first matching row back with its quantity raised by the Java `int` sum and nothing else changed |
| Reconciler.CreateKeepsPairCounts | src/main/java/com/arjencode/project/service/DistributionCenterIntegrationService.java:321-348 | the create branch leaves the absent pair with at most one row and every other pair with its number of rows |
| Reconciler.TwoUnitsOnAbsent | src/main/java/com/arjencode/project/service/DistributionCenterIntegrationService.java:141-170 | two single-unit reconciliations of an absent pair leave one new record holding two units |
| Reconciler.AddItemsToWarehouse | src/main/java/com/arjencode/project/service/DistributionCenterIntegrationService.java:309-356 | the result and the new table are `Reconciled` with the attributes resolved from the center snapshot; the table invariant holds, and only the touched record's timestamps move |
| Reconciler.CreateFromSnapshot | src/main/java/com/arjencode/project/service/DistributionCenterIntegrationService.java:321-348 | the create branch: when the attribute scan throws nothing is stored, otherwise `Reconciled` with the resolved attributes |
| Reconciler.AddItemToWarehouse | src/main/java/com/arjencode/project/service/DistributionCenterIntegrationService.java:141-170 | as written: the result and the new table are `Reconciled` for one unit with "Unknown", 0.00 and 2023 |
| Reconciler.AddItemToWarehouseCorrected | src/main/java/com/arjencode/project/service/DistributionCenterIntegrationService.java:141-170 | corrected: the same with the default price 1.00 |
| Reconciler.AddWithFixedAttributes | src/main/java/com/arjencode/project/service/DistributionCenterIntegrationService.java:143-164 | the single-unit body for given attributes: the result and the new table are `Reconciled` with those attributes, the table invariant holds, and only the touched record's timestamps move |
| Reconciler.FindFirst | src/main/java/com/arjencode/project/service/DistributionCenterIntegrationService.java:144-145 | `findByBrandAndName(...).stream().findFirst()` is empty exactly when no row has the pair, and otherwise is a fresh copy of the first matching row |
| Reconciler.Increment | src/main/java/com/arjencode/project/service/DistributionCenterIntegrationService.java:315-319 | `setQuantity(getQuantity() + quantity)` then `save` on the first loaded match is `Reconciled`'s increment branch; a null quantity throws and changes nothing |
| Reconciler.IncrementIsSave | src/main/java/com/arjencode/project/service/DistributionCenterIntegrationService.java:315-319 | the increment branch is a save, under the first match's own id, of its row with the quantity raised |
| Reconciler.Create | src/main/java/com/arjencode/project/service/DistributionCenterIntegrationService.java:321-348 | building and saving the new entity is `Reconciled`'s create branch |
| Reconciler.NewItem | src/main/java/com/arjencode/project/service/DistributionCenterIntegrationService.java:155-161 | `new Item()` and the setters give an entity with no id and exactly the name, brand, attributes and quantity |
| Replenishment.RequestItemFromClosestCenterWithQuantity | src/main/java/com/arjencode/project/service/DistributionCenterIntegrationService.java:261-306 | the request is sent exactly when find-closest returned 200 with an id and a name, to that id, for the pair and the caller's quantity. `true` only when both calls returned 200. When either step fails, `false` and the table is untouched. Otherwise the table is `Reconciled` |
| Replenishment.RequestItemFromClosestCenterAsWritten | src/main/java/com/arjencode/project/service/DistributionCenterIntegrationService.java:98-136 | as written: the same sequence for one unit, and on success the table is `Reconciled` with "Unknown", 0.00 and 2023, so a pair the table lacks is never stored |
| Replenishment.RequestItemFromClosestCenter | src/main/java/com/arjencode/project/service/DistributionCenterIntegrationService.java:98-136 | corrected: the same sequence for one unit, with the corrected single-unit reconciliation (price 1.00) |
| Catalog.LexLessIrreflexive | src/main/java/com/arjencode/project/service/DistributionCenterIntegrationService.java:368 | the brand order of the `TreeSet` is irreflexive |
| Catalog.LexLessTransitive | src/main/java/com/arjencode/project/service/DistributionCenterIntegrationService.java:368 | the brand order is transitive |
| Catalog.LexLessTotal | src/main/java/com/arjencode/project/service/DistributionCenterIntegrationService.java:368 | any two different brands are ordered one way or the other |
| Catalog.Insert | src/main/java/com/arjencode/project/service/DistributionCenterIntegrationService.java:379 | `allBrands.add`: the list stays sorted without duplicates and holds exactly the old brands plus the new one |
| Catalog.TotalPositiveIff | src/main/java/com/arjencode/project/service/DistributionCenterIntegrationService.java:373-383 | a pair's total is positive exactly when some entry with that brand and name has all three fields and quantity > 0 |
| Catalog.TalliesEmpty | src/main/java/com/arjencode/project/service/DistributionCenterIntegrationService.java:367-368 | the empty map and the empty brand set describe no entries |
| Catalog.TallySkip | src/main/java/com/arjencode/project/service/DistributionCenterIntegrationService.java:373-375 | an entry lacking a field or with quantity <= 0 changes nothing |
| Catalog.MergedAt | src/main/java/com/arjencode/project/service/DistributionCenterIntegrationService.java:381-382 | `computeIfAbsent` then `merge(name, q, Integer::sum)` adds `q` to exactly that pair's entry, with 32-bit wrap-around, and leaves every other pair as it was |
| Catalog.CountAt | src/main/java/com/arjencode/project/service/DistributionCenterIntegrationService.java:381-382 | after one in-stock entry, each listed pair holds the wrapped total over the entries seen, and the in-stock pairs are exactly the listed ones |
| Catalog.TallyCount | src/main/java/com/arjencode/project/service/DistributionCenterIntegrationService.java:373-383 | merging one in-stock entry and adding its brand keeps the aggregation invariant `Tallies` |
| Catalog.ListedIffInStock | src/main/java/com/arjencode/project/service/DistributionCenterIntegrationService.java:367-391 | a pair is listed under its brand exactly when some center has an entry for it with all three fields and quantity > 0 |
| Catalog.BrandListedIffInStock | src/main/java/com/arjencode/project/service/DistributionCenterIntegrationService.java:368-390 | a brand is in `brands` exactly when some in-stock entry has that brand |
| Catalog.GetAvailableItemsByBrand | src/main/java/com/arjencode/project/service/DistributionCenterIntegrationService.java:359-399 | the empty map exactly on a non-200 answer; otherwise the result satisfies `Tallies` over every entry of every center: sorted, duplicate-free brands equal to the key set, each pair's wrapped total of in-stock quantities, no key for a pair without stock |
| Catalog.TallyCenter | src/main/java/com/arjencode/project/service/DistributionCenterIntegrationService.java:371-386 | the inner loop over one center's items keeps `Tallies` for every entry seen so far |
| DataInit.Block2022Facts | src/main/java/com/arjencode/project/config/DataInitializer.java:26-35 | the first block appends ten rows numbered from the next id, all of year 2022, with quantity 0 and a positive price |
| DataInit.Block2021Facts | src/main/java/com/arjencode/project/config/DataInitializer.java:38-42 | the second block appends five such rows of year 2021 |
| DataInit.Block2023Facts | src/main/java/com/arjencode/project/config/DataInitializer.java:45-49 | the third block appends five such rows of year 2023 |
| DataInit.ThreeBlocks | src/main/java/com/arjencode/project/config/DataInitializer.java:26-49 | the three blocks on an empty table give 20 rows numbered 1..20, unstocked, with 10 of 2022, 5 of 2021 and 5 of 2023 |
| DataInit.SeedRowsFacts | src/main/java/com/arjencode/project/config/DataInitializer.java:24-49 | the seeded table has exactly 20 items, ids 1..20, each with quantity 0 and a positive price: 10 of 2022, 5 of 2021, 5 of 2023 |
| DataInit.RunIdempotent | src/main/java/com/arjencode/project/config/DataInitializer.java:24 | running the initializer twice gives the same table as running it once |
| DataInit.LabelledValid | src/main/java/com/arjencode/project/config/DataInitializer.java:26 | a sample item with non-blank labels and a positive price passes validation, so its save succeeds |
| DataInit.Block2022Valid | src/main/java/com/arjencode/project/config/DataInitializer.java:26-35 | every 2022 sample passes validation |
| DataInit.Block2021Valid | src/main/java/com/arjencode/project/config/DataInitializer.java:38-42 | every 2021 sample passes validation |
| DataInit.Block2023Valid | src/main/java/com/arjencode/project/config/DataInitializer.java:45-49 | every 2023 sample passes validation |
| DataInit.Seed | src/main/java/com/arjencode/project/config/DataInitializer.java:26 | `save(new Item(...))` of a valid sample appends exactly its row under the next id |
| DataInit.SeedItems2022 | src/main/java/com/arjencode/project/config/DataInitializer.java:26-35 | the ten saves append the 2022 block and advance the id by ten |
| DataInit.SeedItems2021 | src/main/java/com/arjencode/project/config/DataInitializer.java:38-42 | the five saves append the 2021 block and advance the id by five |
| DataInit.SeedItems2023 | src/main/java/com/arjencode/project/config/DataInitializer.java:45-49 | the five saves append the 2023 block and advance the id by five |
| DataInit.Run | src/main/java/com/arjencode/project/config/DataInitializer.java:22-55 | an empty table becomes the seed table; a non-empty table, its ids and its timestamps are left unchanged |
| Auth.ShowLoginForm | src/main/java/com/arjencode/project/controller/AuthController.java:15-26 | always the "login" view; "error" is set exactly when the error parameter is present and "message" exactly when the logout parameter is present (both can be set); no other attribute; the exact texts |
| Auth.RegisterUser | src/main/java/com/arjencode/project/controller/AuthController.java:33-71 | always one of the two redirects, with exactly one flash attribute |
| Auth.FirstFailure | src/main/java/com/arjencode/project/controller/AuthController.java:42-65 | none exactly when no check fails |
| Auth.FirstFailureIsFirst | src/main/java/com/arjencode/project/controller/AuthController.java:42-65 | the message reported belongs to a failing check with no failing check before it |
| Auth.FirstOfFive | src/main/java/com/arjencode/project/controller/AuthController.java:42-65 | on five checks, the first failure is found by trying them in order |
| Auth.RegisterIsFirstFailure | src/main/java/com/arjencode/project/controller/AuthController.java:41-70 | the controller rejects with the message of the first failing check in the order username, password, confirmation, email, role, and accepts when none fails |
| Auth.RegisterSucceedsIff | src/main/java/com/arjencode/project/controller/AuthController.java:41-70 | the redirect goes to /login exactly when every field is present and non-blank and the confirmation equals the password, and then it carries exactly the success message. A /register redirect carries an error and no message |
| Auth.BlankUsernameWins | src/main/java/com/arjencode/project/controller/AuthController.java:42-45 | a null or whitespace-only username gives "Username is required." whatever the other fields hold |
| Auth.ConfirmationIsExact | src/main/java/com/arjencode/project/controller/AuthController.java:52-55 | with username and password non-blank, the mismatch error occurs exactly when the confirmation differs from the password |
| Auth.ConfirmationExamples | src/main/java/com/arjencode/project/controller/AuthController.java:52-55 | a trailing space, a different letter case, or a null confirmation passed by a direct call, is a mismatch |

## Left out

- `calculateDistance` and the `distanceFromWarehouse` rounding are left out. They are floating-point numerics; the centers' latitude and longitude are carried as `real` without arithmetic.
- The `RestTemplate` exchanges, `createAuthHeaders`, the URL strings and Jackson parsing are inputs, not code. Each HTTP answer is an input datatype: 200 with a parsed body, another status, or an exception.
- JSON details the typed inputs cannot express are not modelled:
  - a present `items` field that is not an array (treated like an absent one);
  - `asLong`/`asInt` on a non-numeric node;
  - JSON `null` as opposed to a missing field.
- `addItemToDistributionCenter` and `deleteItemFromDistributionCenter` are left out. They are plain HTTP pass-throughs with a status check.
- `ItemService`, the other repository queries, `ItemController`, `AdminController` and `HomeController` are left out. They are paging, sorting and view routing inside Spring.
- `AuthController.showRegisterForm` and `accessDenied` only return a view name, so they are left out. Registration stores no user, and the model stores none either.
- `Auth.RegisterUser`: an absent required parameter of `registerUser` is refused with status 400 before the controller runs. The model's `None` cases therefore model a direct Java call with a null argument only.
- Console logging (`System.out.println`, `printStackTrace`) is not modelled.
- `LocalDateTime.now()` is a ghost counter: timestamps are ordered readings, not wall-clock values.
- `BigDecimal` prices are integer cents.
  - Parsing the price text at :337 is not modelled; a snapshot price is given in cents.
  - Scale and precision (10, 2) are not checked.
- Concurrent replenishments of the same pair (a lost-update race) are not modelled. Calls are sequential.
- `ItemStore.Warehouse.Save` assumes the table's ids are the dense 1..n that a table without deletes has. Deletion is not part of this model.
- `ItemStore.Warehouse.FindByBrandAndName` returns rows in table order. A database may return them in any order.
- `Catalog.LexLessTotal` orders strings by character code, like `String.compareTo` on UTF-16 code units; surrogate pairs are not treated specially.
- `Replenishment.RequestItemFromClosestCenter` uses the corrected single-unit reconciliation (see Findings). The as-written orchestration is `Replenishment.RequestItemFromClosestCenterAsWritten`, built on `Reconciler.AddItemToWarehouse`.
- `Reconciler.TwoUnitsOnAbsent` covers two single-unit requests for an absent pair; the same statement for a pair already present is not proved here.

## Findings

| source | as written | input that shows it | evidently intended | confidence | as-written member | corrected member |
|---|---|---|---|---|---|---|
| src/main/java/com/arjencode/project/service/DistributionCenterIntegrationService.java:159 | the single-unit create branch gives the new item price 0.00, which `@Positive` on `price` rejects, so the save throws and `requestItemFromClosestCenter` returns false | any (brand, name) the warehouse does not hold yet, e.g. ("Nike", "Air Max") on an empty table | a positive default price, as the quantity path's 1.00, so that the first unit of a new pair is stored | not executed | Reconciler.AddItemToWarehouse, Reconciler.UnitCreateAlwaysRefused, Replenishment.RequestItemFromClosestCenterAsWritten | Reconciler.AddItemToWarehouseCorrected, Reconciler.CorrectedUnitCreate |
