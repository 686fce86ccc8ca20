# Inventory scanner: a Dafny model of its client stores, proxy guards and page logic

The inventory scanner is a browser client plus a small edge proxy in front of
a spreadsheet service. A warehouse worker scans serial numbers. The browser
posts each scan through the proxy, which relays it to the spreadsheet and
returns the spreadsheet's `{success, data, error}` envelope unchanged. The
browser caches logs, a per-product summary, the product catalog and the B2B
clients in a store. Pages derive their tables and figures from those caches.

This project models that core in Dafny and proves what each part promises.

- `types.dfy` (`Types`): the shared entities — the eight scan events and their wire spellings, scan logs, summary items, products, users with their two roles, cake statuses, B2B clients, and the reply envelope. `Outcome` is what a store operation learns from one request: data on success, an error, or a thrown exception.
- `text.dfy` (`Text`): the string operations the pages use — ASCII `toLowerCase`, `includes`, `split`/`join` on one separator, and `replace(/c/g, d)`. The contracts are stated against independent definitions: an occurrence index, and joining the split parts back together.
- `panels.dfy` (`Panels`): the shared choice between a skeleton, an empty-state notice and the content.
- `routes.dfy` (`Routes`): the proxy's routes. Each handler is a function of its request and of the spreadsheet client, which is a function parameter. The guard decides whether the request is rejected with 400 or relayed as a client call, and a relayed reply is returned verbatim.
- `inventory.dfy` (`Inventory`): the inventory store, as a class whose fields are the four collections and four loading flags. Each operation is split at its `await`s into the state changes of a `Step` function over a `Snapshot`. Every method's `ensures` ties the new state to `Step` or `Run` and also states the fields directly. The requests the store sends are kept in a ghost trace. Lemmas about `Run` cover whole traces:
  - the log list only grows at the front, by the server's entries;
  - the catalog is always the last list the server sent;
  - every summary request is counted by the event that caused it.
- `auth.dfy` (`Auth`): the login store. The credential check is a pure function: first user whose email matches ignoring case, password equality, password stripped. The class holds the directory, the session fields and the loading flag. It has a persisted projection and a rehydrating constructor.
- `inventory_log_page.dfy` (`InventoryLogView`): the log page's logic:
  - the id→name tables built like `new Map`, where the later entry wins;
  - the serial number → product id → product name chain;
  - the client, event and row cells;
  - the loading predicate and the clear-log control.
- `cake_status_page.dfy` (`CakeStatusView`): the case-insensitive serial search followed by the newest-first sort.
- `summary_page.dfy` (`SummaryView`): the two figures (a left fold and a length) and the two panels.
- `settings_page.dfy` (`Settings`): the product form schema and its defaults, and the role gate. A `ProductEditor` class holds `editingProduct` and the form values. Its submit saves through the inventory store.

The store operations take the reply as an `Outcome`. For every operation but the log clear, that is `OutcomeOf` applied to the envelope the proxy's handler returns, and `Routes.HandledOutcome` states what that envelope reads as. The log clear tests only `success`: its reply is `ClearOutcomeOf` of the envelope, which is `Ok(())` exactly when `success` is true, whatever the data. `Types.ClearReadsSuccessOnly` states where the two readings differ.

Inputs that the code gets from outside are parameters of the model:
- the reply to each request (`reply`, and `fetched` for the directory fetch inside login);
- the spreadsheet client (`sheet`);
- the translated unknown-product label (`unknownLabel`);
- the lists a page shows.

Timestamps are integers.

## Model

| member | source | states |
|---|---|---|
| Types.EventNameInjective | shared/types.ts:6-14 | every scan event has a non-empty wire spelling and no two events share one |
| Types.ClearOutcomeOf | src/hooks/use-inventory.ts:117-125 | the clear's reply counts as done exactly when `success` is true, whatever the data, and otherwise carries the envelope's error |
| Types.ClearReadsSuccessOnly | src/hooks/use-inventory.ts:117-125 | a successful reply without data empties the logs under the clear's reading but is a failure under the other operations' reading; with data or without success the two agree |
| Text.Lower | src/pages/CakeStatusPage.tsx:22 | lower-casing keeps the length and maps each character to its lower-case form |
| Text.LowerIdempotent | src/pages/CakeStatusPage.tsx:22 | lower-casing an already lower-cased text changes nothing |
| Text.Includes | src/pages/CakeStatusPage.tsx:22 | `includes` is true exactly when the needle occurs at some index of the text |
| Text.IncludesEmpty | src/pages/CakeStatusPage.tsx:22 | every text includes the empty search term |
| Text.Split | src/pages/InventoryLogPage.tsx:27 | `split` yields at least one part, no part contains the separator, joining the parts restores the text, and there are several parts exactly when the separator occurs |
| Text.JoinLast | src/pages/InventoryLogPage.tsx:28 | a join of two or more parts is the join of all but the last part, the separator, and the last part |
| Text.SplitNone | src/pages/InventoryLogPage.tsx:27-28 | a text without the separator splits into itself alone |
| Text.SplitAppend | src/pages/InventoryLogPage.tsx:27-28 | appending a separator and a separator-free tail adds exactly that tail as a new last part |
| Text.ReplaceAll | src/pages/InventoryLogPage.tsx:68 | replacing every occurrence keeps the length, changes exactly the matching characters and leaves the others |
| Panels.Choose | src/pages/InventoryLogPage.tsx:38-41 | skeleton iff loading and empty, empty state iff not loading and empty, content iff not empty and then the given content |
| Routes.Dispatch | worker/userRoutes.ts:7-70 | a request is rejected exactly when a field its route requires is missing or empty; otherwise it is relayed as the client call carrying the request's own fields |
| Routes.Handle | worker/userRoutes.ts:7-70 | status 400 exactly when a required field is missing, and then an unsuccessful envelope with an error and no data; otherwise status 200 and the client's reply to the relayed call, unchanged |
| Routes.HandledOutcome | worker/userRoutes.ts:7-70 | as the browser reads it, a rejected request is a failure carrying the route's message and a relayed one reads as the spreadsheet's own reply |
| Routes.RejectedBeforeRemoteCall | worker/userRoutes.ts:7-48 | a rejected request gets the same response whatever the spreadsheet client would answer |
| Routes.ScanGuardIgnoresClient | worker/userRoutes.ts:9-11 | the scan guard's verdict does not depend on the client identifier; a DELIVERY_B2B scan without a client is relayed |
| Inventory.ScanRequestGuard | src/hooks/use-inventory.ts:95-101 | a scan the store posts is rejected by the proxy exactly when its serial number or location is empty; otherwise it is relayed with the event's wire spelling and the client as given |
| Inventory.StepLogs | src/hooks/use-inventory.ts:95-113 | an event that does not replace the logs prepends the server's entry for a successful scan and otherwise leaves the logs as they were |
| Inventory.LogsGrowByServerEntries | src/hooks/use-inventory.ts:103-104 | over any trace without a log fetch or a clear, the logs are the entries of the successful scans, newest first, followed by the original logs |
| Inventory.StepProducts | src/hooks/use-inventory.ts:68-165 | one step sets the catalog to the list in a successful fetch, save or delete reply, and otherwise leaves it |
| Inventory.ProductsAreLastServerSnapshot | src/hooks/use-inventory.ts:68-165 | after any trace, the catalog is the last list the server sent, or the starting catalog if it sent none |
| Inventory.StepSends | src/hooks/use-inventory.ts:33-165 | each event appends exactly its own requests, in order, to the request trace |
| Inventory.SentSummary | src/hooks/use-inventory.ts:95-165 | an event sends one summary request exactly when it is an explicit summary fetch or a successful scan, clear, save or delete, and none otherwise |
| Inventory.SummaryRequests | src/hooks/use-inventory.ts:95-165 | the number of summary requests a trace sends is the number of its events that ask for a summary |
| Inventory.InventoryStore.constructor | src/hooks/use-inventory.ts:24-31 | the store starts with empty collections, every flag off and no requests |
| Inventory.InventoryStore.BeginFetchSummary | src/hooks/use-inventory.ts:55-58 | summary loading on and GET /api/summary sent, nothing else changed |
| Inventory.InventoryStore.CompleteFetchSummary | src/hooks/use-inventory.ts:59-66 | the summary is replaced on success, unchanged on failure or throw, the flag off on every path, other collections untouched |
| Inventory.InventoryStore.FetchSummary | src/hooks/use-inventory.ts:55-67 | the whole fetch: summary replaced only on success, flag off afterwards, one summary request sent |
| Inventory.InventoryStore.BeginFetchLogs | src/hooks/use-inventory.ts:33-36 | logs loading on and GET /api/logs sent, logs unchanged |
| Inventory.InventoryStore.CompleteFetchLogs | src/hooks/use-inventory.ts:37-52 | the logs are replaced only when the reply has success and data, loading off on every path, other collections untouched |
| Inventory.InventoryStore.FetchLogs | src/hooks/use-inventory.ts:33-53 | the whole fetch: logs replaced only on success with data, flag off afterwards, one logs request sent |
| Inventory.InventoryStore.BeginFetchProducts | src/hooks/use-inventory.ts:68-71 | products loading on and GET /api/products sent |
| Inventory.InventoryStore.CompleteFetchProducts | src/hooks/use-inventory.ts:72-79 | the catalog is replaced on success, unchanged otherwise, loading off, other collections untouched |
| Inventory.InventoryStore.FetchProducts | src/hooks/use-inventory.ts:68-80 | the whole fetch of the catalog, with the same outcome and the flag off afterwards |
| Inventory.InventoryStore.BeginFetchB2BClients | src/hooks/use-inventory.ts:82-85 | client loading on and GET /api/b2b-clients sent |
| Inventory.InventoryStore.CompleteFetchB2BClients | src/hooks/use-inventory.ts:86-93 | the client list is replaced on success, unchanged otherwise, loading off, other collections untouched |
| Inventory.InventoryStore.FetchB2BClients | src/hooks/use-inventory.ts:82-94 | the whole fetch of the client list, with the same outcome and the flag off afterwards |
| Inventory.InventoryStore.AddScan | src/hooks/use-inventory.ts:95-113 | the scan is posted as given; on success the server's entry is put before the old logs and a summary re-fetch starts; a failure or throw changes nothing but the request trace |
| Inventory.InventoryStore.BeginClearLogs | src/hooks/use-inventory.ts:114-117 | both the logs and the summary flags on and the clear posted |
| Inventory.InventoryStore.CompleteClearLogs | src/hooks/use-inventory.ts:118-130 | logs and summary emptied only on success, both flags off on every path, catalog and clients untouched, a summary re-fetch sent on success |
| Inventory.InventoryStore.ClearLogs | src/hooks/use-inventory.ts:114-131 | the whole clear: logs and summary emptied only on success, both flags off afterwards, catalog and clients untouched |
| Inventory.InventoryStore.AddProduct | src/hooks/use-inventory.ts:132-150 | the product is posted; on success the catalog becomes the server's list as a whole and a summary re-fetch starts; logs, summary and clients untouched |
| Inventory.InventoryStore.DeleteProduct | src/hooks/use-inventory.ts:151-165 | the delete is sent; on success the catalog becomes the server's list as a whole and a summary re-fetch starts; logs, summary and clients untouched |
| Auth.FirstMatch | src/hooks/use-auth.ts:43 | the position found is that of a user whose email matches ignoring case, with no earlier match; no position means nobody matches |
| Auth.Authenticate | src/hooks/use-auth.ts:43-47 | an email no user has fails the check; otherwise it succeeds exactly when the first matching user's password equals the supplied one, and then yields that user without password |
| Auth.UnknownEmailRefused | src/hooks/use-auth.ts:43-44 | a login whose email matches no user, ignoring case, fails whatever the password |
| Auth.FirstMatchDecides | src/hooks/use-auth.ts:43-47 | the first matching user alone decides: login succeeds iff that user's password equals the supplied one, and the kept user has that user's email, name, role and location |
| Auth.LaterUsersIgnored | src/hooks/use-auth.ts:43 | replacing any user after the first match leaves the login outcome unchanged |
| Auth.EmailCaseIgnored | src/hooks/use-auth.ts:43 | lower-casing the typed email does not change the login outcome |
| Auth.AuthStore.constructor | src/hooks/use-auth.ts:17-20 | the store starts signed out, with an empty directory, not loading |
| Auth.AuthStore.Rehydrate | src/hooks/use-auth.ts:60-63 | a stored session restores exactly the signed-in user and the flag; the directory starts empty and nothing is loading |
| Auth.AuthStore.BeginFetchUsers | src/hooks/use-auth.ts:21-24 | loading on, GET /api/users sent, directory and session unchanged |
| Auth.AuthStore.CompleteFetchUsers | src/hooks/use-auth.ts:25-35 | the directory is replaced only on success, loading off on every path, session unchanged |
| Auth.AuthStore.FetchUsers | src/hooks/use-auth.ts:21-36 | the whole fetch: directory replaced only on success, loading off, session and persisted projection unchanged |
| Auth.AuthStore.Login | src/hooks/use-auth.ts:37-54 | the directory is fetched first only when the cache is empty; login succeeds iff the credential check succeeds on the resulting directory, and then the session holds the stripped user and is authenticated; on failure the persisted session is unchanged |
| Auth.AuthStore.Logout | src/hooks/use-auth.ts:55-58 | the session is signed out whatever it was, directory and loading untouched |
| InventoryLogView.KeyedMapKeys | src/pages/InventoryLogPage.tsx:23 | the table's keys are exactly the keys of the pairs |
| InventoryLogView.KeyedMapLastWins | src/pages/InventoryLogPage.tsx:23 | for a key given more than once, the table holds the value of its last pair |
| InventoryLogView.ProductMapLaterWins | src/pages/InventoryLogPage.tsx:23 | the product table knows exactly the catalog's ids and maps each to the name of the last product with that id |
| InventoryLogView.SerialDecomposes | src/pages/InventoryLogPage.tsx:26-28 | a serial with a '-' is its product id, '-', and a last part without '-'; a serial without '-' is its own product id |
| InventoryLogView.ProductIdOfParts | src/pages/InventoryLogPage.tsx:26-28 | conversely, an id, '-' and a tail without '-' give back that id and that tail |
| InventoryLogView.ProductIdExample | src/pages/InventoryLogPage.tsx:26-28 | "OLV-001-0001" has product id "OLV-001" |
| InventoryLogView.ProductNameFromCatalog | src/pages/InventoryLogPage.tsx:25-30 | a serial shows the non-empty name of the last catalog product with its product id, and the unknown-product label when no product has that id or that last product's name is empty |
| InventoryLogView.ClientCell | src/pages/InventoryLogPage.tsx:70 | 'N/A' without a client id or with an empty one; otherwise the cell looks the id up in the client table given to it |
| InventoryLogView.ClientMapLaterWins | src/pages/InventoryLogPage.tsx:24 | the client table knows exactly the listed client ids and maps each to the name of the last client with that id |
| InventoryLogView.ClientCellFromList | src/pages/InventoryLogPage.tsx:24-70 | against the client list: a non-empty client id shows the name of the last client with that id when it is not empty, and the raw id when no client has it or its name is empty |
| InventoryLogView.EventLabel | src/pages/InventoryLogPage.tsx:68 | the event label has the wire spelling's length, shows every '_' as a space and keeps every other character |
| InventoryLogView.RenderContent | src/pages/InventoryLogPage.tsx:36-79 | skeleton iff nothing is cached and something is loading, empty state iff nothing is cached and nothing loads; otherwise one row per cached entry in order, with its serial, product name, event label, location, client cell and timestamp |
| InventoryLogView.ClearLogControl | src/pages/InventoryLogPage.tsx:100-103 | the clear control exists only for a warehouse manager, and is disabled exactly when there are no logs or they are loading |
| CakeStatusView.FilterBySerial | src/pages/CakeStatusPage.tsx:21-22 | the filter keeps each matching entry as often as it occurs and drops every other |
| CakeStatusView.Insert | src/pages/CakeStatusPage.tsx:23 | inserting into a newest-first list keeps it newest first and adds exactly the one entry |
| CakeStatusView.SortNewestFirst | src/pages/CakeStatusPage.tsx:23 | the sort yields a newest-first permutation of its input |
| CakeStatusView.FilteredStatus | src/pages/CakeStatusPage.tsx:20-24 | the result is newest first and holds exactly the matching entries, each as often as in the cached list |
| CakeStatusView.EmptySearchKeepsAll | src/pages/CakeStatusPage.tsx:22 | an empty search term keeps every entry, only reordered |
| CakeStatusView.FilterIgnoresCase | src/pages/CakeStatusPage.tsx:21-22 | filtering with the lower-cased term selects the same entries as with the term |
| CakeStatusView.SearchIgnoresCase | src/pages/CakeStatusPage.tsx:20-24 | the page's result is the same for a term and its lower-cased form |
| CakeStatusView.Render | src/pages/CakeStatusPage.tsx:25-33 | skeleton iff loading with nothing cached, empty state iff nothing cached and not loading, otherwise the matching entries newest first, each as often as it is cached |
| SummaryView.TotalConcat | src/pages/SummaryPage.tsx:40 | the total over a concatenation is the sum of the parts' totals |
| SummaryView.ReduceIsTotal | src/pages/SummaryPage.tsx:40 | the left fold from a starting value adds the total of the counts to that value |
| SummaryView.KpisOf | src/pages/SummaryPage.tsx:39-45 | totalItems is the sum of the counts, uniqueProducts the number of items; an empty summary gives 0 and 0 |
| SummaryView.KpisConcat | src/pages/SummaryPage.tsx:39-45 | both figures of a summary in two parts are the sums of the parts' figures |
| SummaryView.RenderKpis | src/pages/SummaryPage.tsx:46-55 | skeletons exactly while loading an empty summary, otherwise the two figures |
| SummaryView.RenderGrid | src/pages/SummaryPage.tsx:87-131 | skeleton iff loading and empty, empty state iff not loading and empty, otherwise one card per summary item |
| Settings.IssuesExact | src/pages/SettingsPage.tsx:20-32 | the reported issues are exactly the fields whose rule fails |
| Settings.Validate | src/pages/SettingsPage.tsx:20-32 | a form is accepted iff no field rule fails; a rejection lists exactly the failing fields; an accepted form becomes the product it shows, with the perishable switch defaulting to off |
| Settings.DefaultFormNeedsIdAndName | src/pages/SettingsPage.tsx:34-38 | the default form is refused for its id and name only; with both filled in it becomes a product with empty texts, zero numbers, not perishable |
| Settings.EditedProductRoundTrip | src/pages/SettingsPage.tsx:20-57 | a product shown in the form and saved unchanged is saved as itself when the schema allows it, and refused exactly when some field rule fails |
| Settings.AcceptedProductPassesProxy | src/pages/SettingsPage.tsx:20-22 | every product the form accepts passes the proxy's id-and-name check and is relayed unchanged |
| Settings.ViewOf | src/pages/SettingsPage.tsx:69-97 | anyone but a warehouse manager gets only the access-denied view; a manager gets the product list with the shared skeleton and empty-state rule |
| Settings.ProductEditor.constructor | src/pages/SettingsPage.tsx:43-47 | the editor starts adding a new product with the default form |
| Settings.ProductEditor.HandleEdit | src/pages/SettingsPage.tsx:51-65 | editing a product selects it; the form is filled with it unless that product was already being edited, in which case the typed values stay |
| Settings.ProductEditor.HandleCancelEdit | src/pages/SettingsPage.tsx:51-68 | cancelling ends the edit; the form returns to the defaults only if a product was being edited |
| Settings.ProductEditor.Enter | src/pages/SettingsPage.tsx:134 | typing changes the form but never the id while a product is edited |
| Settings.ProductEditor.Submit | src/pages/SettingsPage.tsx:51-61 | a refused form changes nothing; an accepted one is saved through the store, and whatever the store's reply the editor stops editing; the form returns to the defaults only if a product was being edited, and otherwise keeps the submitted values; an edited product keeps its id |

## Left out

- The QR scanner page (src/pages/HomePage.tsx) is not part of this model: camera access, timers and alerts.
- The spreadsheet client (worker/googleSheetClient.ts) is not part of this model. It is the function parameter `sheet` of `Routes.Handle`. The API key and the fresh client each handler builds are not modelled beyond handlers being functions without state.
- Network requests, toasts, console output and the browser's local storage are not modelled. Replies are inputs. Requests are a ghost trace. Persistence is the `Persisted` projection and the `Rehydrate` constructor.
- Concurrency of requests in flight is not modelled. Each operation is split at its awaits into events, but there is no claim about which interleavings the browser produces.
- A proxy request whose JSON body cannot be parsed is not modelled.
- The helpers in src/lib/utils.ts (the beep sound and class-name merging), the date formatting on the pages, and the render-only pages and components are not part of this model.
- Types.Outcome: a reply with `success` and no `data` is read as a failure. fetchLogs does exactly that. fetchSummary, fetchProducts, fetchB2BClients, addScan, addProduct, deleteProduct and fetchUsers test only `success` and would store `undefined` in that case. clearLogs also tests only `success`, and that case is modelled: `ClearOutcomeOf` reads such a reply as done.
- Text.Lower: ASCII letters only. JavaScript's Unicode case mapping is not modelled.
- CakeStatusView.SortNewestFirst: the relative order of entries with equal `lastUpdate` is not stated. The dates are integers here, so the NaN of an unparsable date string does not arise.
- Types.ScanLog: the timestamp is an integer, while the source's type is text.
- Types.InventorySummaryItem: a count is an unbounded integer. In the source it is a JavaScript number, and the total is a floating-point sum. The two agree for whole counts whose total stays below 2^53.
- Settings.ProductEditor.HandleEdit: "the product already being edited" is compared by value. React compares the object reference, so choosing an equal but freshly fetched product object resets the form in the browser, and the model does not do that.
- Settings.Validate: the numbers arrive already as numbers. The conversion of typed text into numbers is not modelled. One consequence: an emptied number field, which the browser turns into 0 and accepts, is not covered. Only which fields fail is stated, not the wording of the messages.
- The pages' lists: the log page reads `clients` and the cake-status page reads `cakeStatus`, `loadingCakeStatus` and `fetchCakeStatus`. The inventory store defines none of these. The model passes those lists and flags to the page functions as parameters instead of modelling that wiring.
