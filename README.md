# Kibo Commerce MCP server — a Dafny model

This project models the core of the Kibo Commerce MCP server. The server
exposes twelve tools over the Model Context Protocol. Each tool validates
its arguments against a schema. It then sends one or more authenticated
requests to the Kibo Commerce REST API and answers with a JSON envelope.

The model covers these parts of the server:

- **Configuration** (`server.dfy`, module `Server`). The environment is
  checked for the five required variables. The ids are parsed with
  JavaScript's `parseInt`, and the optional settings take their defaults.
- **Token manager and gateway** (`auth.dfy`, module `Auth`). The
  `KiboAuthService` class holds the token record and the in-flight refresh
  marker. Its methods update them in place. Its request gateway injects the
  tenant, site and catalog headers. It replays a request that drew a 401
  exactly once.
- **Shared helpers** (`base_service.dfy`, module `BaseService`). These are
  the base service's filter, pagination, response-field, validation and
  error-report helpers.
- **Tools.** There is one module per tool file: `ProductTools`,
  `OrderTools`, `CustomerTools` and `InventoryTools`. Each has:
  - the argument schemas, and the catalog entries that advertise them;
  - the name switch;
  - the query each handler builds, as a specification function plus the
    imperative builder that is proved to produce it;
  - the request each handler sends, and the envelope it answers with.
- **Routing** (`server.dfy`). The advertised tool list, the routing of a
  call to its tool group, and the wrapping of thrown errors into MCP
  errors.

`js.dfy` (module `Js`) holds the JavaScript semantics the source depends
on:

- JSON values, and truthiness;
- `||` used as a fallback;
- property access on `null`;
- the spread of objects and arrays;
- `parseInt` and `encodeURIComponent`;
- `Array.join` and `String.split`;
- the message of a thrown error.

`tool_support.dfy` holds the zod-style argument reader, the catalog
records and the success and failure envelopes that the four tool files
share.

Network replies are inputs of the model. A handler takes the result the
API request settles with (`answer`, or `fetched` and `stored` for the two
requests of a status update, or one reply per product for a stock check).
It returns the requests it sends together with its outcome. The clock
(`now`, `updateDate`, `noteDate`) is a parameter too.

Two behaviours of the code are modelled as written:

- A name that no prefix routes is rejected with `ErrorCode.MethodNotFound`
  (src/index.ts:112-115). That error is thrown inside the `try` whose
  `catch` re-throws every error as an internal error
  (src/index.ts:117-123). So the client receives an internal error, not
  the method-not-found error the code names (Findings, row 2).
- The authentication request posts a JSON body. Section 4.4.2 of RFC 6749
  specifies a form-encoded body for the client-credentials grant.

## Model

| member | source | states |
|---|---|---|
| Js.ParseIntRoundTrip | src/index.ts:51-52 | `parseInt` reads back the decimal text of any integer |
| Js.EncodedIsUrlSafe | src/tools/order-tools.ts:300 | `encodeURIComponent` output holds only unreserved characters and `%` escapes, so it never holds `/` |
| Js.EncodeUnreservedIdentity | src/tools/order-tools.ts:300 | `encodeURIComponent` leaves text made only of unreserved characters unchanged |
| Js.SplitJoin | src/services/base-service.ts:117-119 | splitting a joined list on a separator no part contains gives back the parts |
| Js.Get | src/tools/order-tools.ts:352-357 | reading a property of `null` throws; reading one of an object yields the property or `undefined` |
| Js.Spread | src/tools/order-tools.ts:352-353 | spreading an object copies its properties; spreading `null` or `undefined` copies none |
| Js.SpreadItems | src/tools/order-tools.ts:370 | spreading an array yields its items, spreading a string yields its characters, and anything else throws "… is not iterable" |
| Js.Defined | src/tools/order-tools.ts:379-395 | `JSON.stringify` drops exactly the properties whose value is `undefined` |
| Js.Or | src/tools/product-tools.ts:209-214 | `a \|\| b` yields `a` when it is truthy and `b` otherwise |
| Auth.AuthRequest | src/auth/auth-service.ts:68-83 | the authentication POST goes to the host's authtickets URL with client id, secret and the client-credentials grant, and its URL carries the marker that exempts it from header injection |
| Auth.Delivered | src/auth/auth-service.ts:195-206 | a 2xx reply resolves with its body; any other status rejects with an HTTP error, and no reply rejects with a network error |
| Auth.Issued | src/auth/auth-service.ts:87-92 | the token record keeps the access and refresh tokens, defaults the type to "Bearer", and expires `expires_in` seconds after issue |
| Auth.Authenticated | src/auth/auth-service.ts:68-103 | authentication succeeds exactly when a token is granted; a failure is an error whose message starts "Kibo authentication failed: " |
| Auth.FreshTokenValidity | src/auth/auth-service.ts:143-153 | a token just granted is usable exactly when its lifetime exceeds the five-minute buffer |
| Auth.ValidityIsMonotone | src/auth/auth-service.ts:143-153 | a token valid at some time is valid at every earlier time |
| Auth.AuthHeaders | src/auth/auth-service.ts:164-178 | the bearer token and tenant are always set, the site only when truthy and the master catalog only when set; every other header, and a site or master-catalog header that is not overwritten, is kept |
| Auth.OnResponseError | src/auth/auth-service.ts:36-48 | a failed request is replayed exactly when it drew a 401 and is not yet marked, and the replay is marked |
| Auth.ReplayedOnlyOnce | src/auth/auth-service.ts:37-38 | a replayed request is never replayed again, whatever it fails with |
| Auth.KiboAuthService.constructor | src/auth/auth-service.ts:17-50 | a new service holds no token and no refresh in flight |
| Auth.KiboAuthService.Initialize | src/auth/auth-service.ts:55-63 | one authentication, whose outcome replaces the token record |
| Auth.KiboAuthService.BeginRefresh | src/auth/auth-service.ts:108-114 | a refresh starts an authentication only when none is in flight, so at most one is ever outstanding |
| Auth.KiboAuthService.CompleteRefresh | src/auth/auth-service.ts:116-123 | the settled authentication replaces the token record and clears the in-flight marker on success and on failure |
| Auth.KiboAuthService.RefreshAccessToken | src/auth/auth-service.ts:108-124 | joins a refresh in flight or starts one; either way the marker ends clear |
| Auth.KiboAuthService.BeginGetAccessToken | src/auth/auth-service.ts:129-137 | a valid token is returned without any authentication; otherwise a refresh is in flight |
| Auth.KiboAuthService.GetAccessToken | src/auth/auth-service.ts:129-138 | returns the cached token while it is valid and changes nothing; otherwise returns the refreshed token |
| Auth.KiboAuthService.AddAuthHeaders | src/auth/auth-service.ts:158-183 | the authentication request passes untouched; every other request gets the headers of a valid or refreshed token, or fails with the refresh error |
| Auth.KiboAuthService.Request | src/auth/auth-service.ts:33-49 | sends at most two requests; the second is sent only after a 401 on an unmarked request, is the same request marked as replayed, and its reply is final; the token record, the marker and the number of authentications afterwards are those `AfterRequest` gives for each path |
| Auth.AuthenticationsPerRequest | src/auth/auth-service.ts:33-49 | one call starts at most three authentications, and leaves no refresh pending that was not pending before |
| Auth.ValidTokenNoAuthentication | src/auth/auth-service.ts:129-137 | with a valid token and no 401 to replay, a call leaves the token state as it was and starts no authentication |
| Auth.GrantedRefreshServesReplay | src/auth/auth-service.ts:37-41 | after a 401, a granted refresh whose token outlives the 5-minute buffer is the only authentication, and its token is kept |
| Auth.KiboAuthService.GetTokenInfo | src/auth/auth-service.ts:212-222 | reports whether a token is held and, only then, its expiry and validity |
| Auth.KiboAuthService.ConcurrentDemand | src/auth/auth-service.ts:108-124 | any number of callers asking while no token is valid cause exactly one authentication and all get its outcome |
| BaseService.EntryClause | src/services/base-service.ts:86-95 | a filter entry yields a clause exactly when it is a string, number, boolean or date; strings are quoted and dates are datetime literals |
| BaseService.ClausesAppend | src/services/base-service.ts:86-96 | filter clauses keep the order of the entries |
| BaseService.NoClauses | src/services/base-service.ts:86-98 | the filter is empty exactly when no entry qualifies |
| BaseService.RenderedEntry | src/services/base-service.ts:88-93 | the exact text of each kind of clause |
| BaseService.BuildFilter | src/services/base-service.ts:83-99 | the loop joins the rendered clauses of the qualifying entries with " and ", and is empty exactly when none qualifies |
| BaseService.BuildPagination | src/services/base-service.ts:104-112 | start index defaults to 0 and page size to 20 |
| BaseService.BuildResponseFields | src/services/base-service.ts:117-119 | no names give empty text, one name is sent as it is, and comma-free names are separated by exactly one comma each |
| BaseService.ResponseFieldsRoundTrip | src/services/base-service.ts:117-119 | the response-fields text splits back into the field list |
| BaseService.FormatCollectionResponse | src/services/base-service.ts:124-150 | the items under the data key and the four pagination counts, each defaulting to 0 |
| BaseService.FormatSuccessResponse | src/services/base-service.ts:240-255 | success flag and data, plus the message only when it is non-empty |
| BaseService.Missing | src/services/base-service.ts:221-223 | a parameter is missing exactly when it is required and absent, `null` or empty |
| BaseService.MissingKeepsOrder | src/services/base-service.ts:221-223 | missing parameters are reported in the order they are required |
| BaseService.ValidateRequired | src/services/base-service.ts:220-228 | validation passes exactly when nothing is missing, and otherwise lists the missing parameters |
| BaseService.FalsyButPresent | src/services/base-service.ts:221-223 | 0 and `false` count as present |
| BaseService.HandleError | src/services/base-service.ts:155-215 | a thrown `null` or `undefined` (and only that) makes it throw the TypeError of reading `isAxiosError`; otherwise each HTTP status gets its error and details, a network failure gets "Network error", and anything else keeps its message |
| ToolSupport.ParseField | src/tools/customer-tools.ts:16-41 | a field is accepted exactly when it has the right type and bounds, or it is absent and not required; an absent field takes its default |
| ToolSupport.ParseFields | src/tools/customer-tools.ts:194 | a schema accepts the arguments exactly when every field does, and the result holds only schema fields |
| ToolSupport.Parse | src/tools/customer-tools.ts:194 | arguments that are not an object are rejected |
| ToolSupport.ParsedNumber | src/tools/customer-tools.ts:16-25 | a parsed number field lies within its bounds and is the given value, or the default when absent |
| ToolSupport.ParsedBool | src/tools/customer-tools.ts:27-32 | a parsed flag is the given value, or the default when absent |
| ToolSupport.ParsedString | src/tools/customer-tools.ts:27-32 | a parsed text field is the given text, and is present when required |
| ToolSupport.ParsedStrings | src/tools/inventory-tools.ts:31-35 | a parsed list of codes is the given array, item by item |
| ToolSupport.Failure | src/tools/customer-tools.ts:262-275 | a caught error answers `success: false`, the error's message (or "Unknown error occurred") and the handler's details |
| ToolSupport.PaginationOf | src/tools/customer-tools.ts:243-260 | the four pagination counts, each falling back to 0; a `null` reply throws |
| ToolSupport.CollectionData | src/tools/customer-tools.ts:243-260 | the reply's items under the tool's key, falling back to an empty list, beside the pagination |
| ToolSupport.Settle | src/tools/customer-tools.ts:243-275 | a shaped reply answers success, and any failure answers the failure envelope |
| ToolSupport.CollectionDefaults | src/tools/customer-tools.ts:243-260 | an empty reply yields an empty list and zero counts |
| CustomerTools.ParseSearch | src/tools/customer-tools.ts:16-25 | page bounds and defaults, and `isActive` kept as given |
| CustomerTools.ParseDetail | src/tools/customer-tools.ts:27-32 | the account id is required; attributes and contacts default on, cards off |
| CustomerTools.ParseHistory | src/tools/customer-tools.ts:34-41 | the account id is required, with page bounds and defaults |
| CustomerTools.SearchCatalogEntry | src/tools/customer-tools.ts:48-93 | the advertised search tool lists the schema's fields, types, bounds, defaults and required names |
| CustomerTools.DetailCatalogEntry | src/tools/customer-tools.ts:94-122 | the advertised detail tool matches its schema |
| CustomerTools.HistoryCatalogEntry | src/tools/customer-tools.ts:123-161 | the advertised history tool matches its schema |
| CustomerTools.CatalogNames | src/tools/customer-tools.ts:46-163 | the catalog advertises exactly the names the switch accepts, in order |
| CustomerTools.Dispatch | src/tools/customer-tools.ts:168-184 | a name is handled exactly when it is advertised, by the handler of that entry; any other name throws "Unknown customer tool: " and the name |
| CustomerTools.BuildSearchFilters | src/tools/customer-tools.ts:203-224 | the loop-free builder pushes exactly the clauses of the filled criteria, in source order |
| CustomerTools.BuildSearchQuery | src/tools/customer-tools.ts:197-235 | the builder yields the search query |
| CustomerTools.SearchFilterPresence | src/tools/customer-tools.ts:222-228 | a filter is sent exactly when some criterion is set, and `isActive: false` still filters |
| CustomerTools.SearchClauseOrder | src/tools/customer-tools.ts:203-227 | with every criterion set, the filter is the five clauses in source order joined by " and " |
| CustomerTools.HandleSearch | src/tools/customer-tools.ts:189-277 | bad arguments throw before any request; otherwise one GET of the accounts with the search query, answered with the customers and pagination or the failure envelope |
| CustomerTools.BuildDetailFields | src/tools/customer-tools.ts:290-317 | the builder yields the detail fields |
| CustomerTools.DetailFieldsByFlag | src/tools/customer-tools.ts:290-317 | the base fields come first, and each optional group appears exactly when its flag is set |
| CustomerTools.DetailDefaults | src/tools/customer-tools.ts:27-32 | with no flags given, attributes and contacts are requested and cards are not |
| CustomerTools.HandleDetails | src/tools/customer-tools.ts:282-353 | one GET of the account's URL with the detail fields |
| CustomerTools.BuildHistoryQuery | src/tools/customer-tools.ts:366-392 | the builder yields the history query |
| CustomerTools.HistoryFilterStartsWithAccount | src/tools/customer-tools.ts:373-389 | the history filter always starts with the account clause, and results are sorted newest first |
| CustomerTools.HandleOrderHistory | src/tools/customer-tools.ts:358-435 | one GET of the orders with the history query, answered with the orders |
| CustomerTools.HandleCustomerTools | src/tools/customer-tools.ts:168-184 | an unknown name throws "Unknown customer tool: <name>" before any request; an accepted name sends its handler's request and settles with its handler's outcome (`Handled`: a schema error throws first, otherwise the GET and envelope of that tool); every request is a GET |
| OrderTools.ParseSearch | src/tools/order-tools.ts:16-25 | page bounds and defaults, and the status kept as given |
| OrderTools.ParseDetail | src/tools/order-tools.ts:27-32 | the order number is required, and all three groups default on |
| OrderTools.ParseStatus | src/tools/order-tools.ts:34-38 | order number and status are required, and the note is kept exactly when given |
| OrderTools.SearchCatalogEntry | src/tools/order-tools.ts:45-90 | the advertised search tool matches its schema |
| OrderTools.DetailCatalogEntry | src/tools/order-tools.ts:91-119 | the advertised detail tool matches its schema |
| OrderTools.StatusCatalogEntry | src/tools/order-tools.ts:120-141 | the advertised status-update tool matches its schema |
| OrderTools.CatalogNames | src/tools/order-tools.ts:43-143 | the catalog advertises exactly the names the switch accepts, in order |
| OrderTools.Dispatch | src/tools/order-tools.ts:148-164 | a name is handled exactly when it is advertised; any other name throws "Unknown order tool: " and the name |
| OrderTools.OrderUrl | src/tools/order-tools.ts:300 | an order URL lies under the orders path |
| OrderTools.OrderUrlIsOneSegment | src/tools/order-tools.ts:300 | whatever the order number, it fills exactly one path segment |
| OrderTools.BuildSearchFilters | src/tools/order-tools.ts:183-204 | the builder pushes exactly the clauses of the filled criteria, in source order |
| OrderTools.BuildSearchQuery | src/tools/order-tools.ts:177-215 | the builder yields the search query |
| OrderTools.SearchFilterPresence | src/tools/order-tools.ts:186-208 | a filter is sent exactly when some criterion is set |
| OrderTools.SearchDateRange | src/tools/order-tools.ts:198-204 | with both dates set, the last two clauses bound the submission date from below and from above |
| OrderTools.HandleSearch | src/tools/order-tools.ts:169-257 | bad arguments throw before any request; otherwise one GET of the orders, answered with the orders or the failure envelope |
| OrderTools.BuildDetailFields | src/tools/order-tools.ts:270-296 | the builder yields the detail fields |
| OrderTools.DetailFieldsByFlag | src/tools/order-tools.ts:270-296 | base fields first, and each optional group exactly when its flag is set |
| OrderTools.DetailDefaults | src/tools/order-tools.ts:27-32 | with no flags given, every optional group is requested |
| OrderTools.HandleDetails | src/tools/order-tools.ts:262-332 | one GET of the order's URL with the detail fields |
| OrderTools.Merged | src/tools/order-tools.ts:352-360 | the update keeps every property of the current order except status and audit info; the status is the new one, and a `null` order throws |
| OrderTools.NotesAfter | src/tools/order-tools.ts:363-371 | the new note is appended to the current notes, or starts the list when there are none |
| OrderTools.Confirmation | src/tools/order-tools.ts:379-395 | the confirmation throws exactly when the stored reply is `null` |
| OrderTools.HandleStatusUpdate | src/tools/order-tools.ts:337-412 | a schema error throws before any request; otherwise the requests are `StatusCalls` and the outcome is `StatusResult` |
| OrderTools.StatusCallsShape | src/tools/order-tools.ts:346-377 | a GET of the order, then a PUT of the updated order to the same URL; the PUT is sent exactly when the GET succeeded and the update could be built |
| OrderTools.UpdateKeepsOrder | src/tools/order-tools.ts:352-360 | the payload keeps every other property of the order, with the new status and audit info by "mcp-server" |
| OrderTools.NoteAppended | src/tools/order-tools.ts:363-371 | with a note, the stored notes are the old ones followed by the new note |
| OrderTools.NoNoteNoNotes | src/tools/order-tools.ts:363 | without a note, the notes are left as they were |
| OrderTools.NotesNotIterable | src/tools/order-tools.ts:370 | notes that are neither a list nor text make the update throw "currentOrder.notes is not iterable" |
| OrderTools.ConfirmationReports | src/tools/order-tools.ts:379-395 | the confirmation reports the old status read and the new status stored |
| OrderTools.HandleOrderTools | src/tools/order-tools.ts:148-164 | an unknown name throws "Unknown order tool: <name>" before any request; an accepted name sends its handler's requests and settles with its handler's outcome (`Handled`) |
| OrderTools.HandledRequests | src/tools/order-tools.ts:148-164 | search and details send at most one GET; at most two requests in all, and two only as a GET then a PUT of the same order |
| InventoryTools.ParseSearch | src/tools/inventory-tools.ts:16-23 | page size defaults to 50, and reserved and allocated default on |
| InventoryTools.ParseDetail | src/tools/inventory-tools.ts:25-29 | the product code is required, and history defaults off |
| InventoryTools.ParseStock | src/tools/inventory-tools.ts:31-35 | the product codes are the given list, and the quantity is at least 1 and defaults to 1 |
| InventoryTools.SearchCatalogEntry | src/tools/inventory-tools.ts:42-81 | the advertised search tool matches its schema |
| InventoryTools.DetailCatalogEntry | src/tools/inventory-tools.ts:82-104 | the advertised detail tool matches its schema |
| InventoryTools.StockCatalogEntry | src/tools/inventory-tools.ts:105-131 | the advertised stock tool matches its schema |
| InventoryTools.CatalogNames | src/tools/inventory-tools.ts:40-133 | the catalog advertises exactly the names the switch accepts, in order |
| InventoryTools.Dispatch | src/tools/inventory-tools.ts:138-154 | a name is handled exactly when it is advertised; any other name throws "Unknown inventory tool: " and the name |
| InventoryTools.BuildSearchQuery | src/tools/inventory-tools.ts:167-206 | the builder yields the search query |
| InventoryTools.SearchFilterShape | src/tools/inventory-tools.ts:173-186 | a filter is sent exactly when product or location is set; with both, product comes first |
| InventoryTools.SearchFieldsByFlag | src/tools/inventory-tools.ts:188-206 | base fields first, reserved exactly when asked, and allocated asked for twice when its flag is set |
| InventoryTools.HandleSearch | src/tools/inventory-tools.ts:159-248 | one GET of the inventory with the search query, answered with the inventory and pagination |
| InventoryTools.DetailUrlSegments | src/tools/inventory-tools.ts:261-267 | the detail URL has the product code, and the location when given, each as exactly one path segment |
| InventoryTools.BuildDetailUrl | src/tools/inventory-tools.ts:261-267 | the builder yields the detail URL |
| InventoryTools.DetailFieldsByFlag | src/tools/inventory-tools.ts:269-285 | base fields first, and transactions exactly when history is asked for |
| InventoryTools.HandleDetails | src/tools/inventory-tools.ts:253-319 | one GET of the detail URL with the detail fields |
| InventoryTools.AvailabilityReports | src/tools/inventory-tools.ts:352-367 | a product is available exactly when its lookup succeeded with enough stock online; a failed lookup is unavailable and carries the error |
| InventoryTools.Results | src/tools/inventory-tools.ts:335-368 | one result per requested code, in order, each the availability of that code |
| InventoryTools.Flagged | src/tools/inventory-tools.ts:383-384 | a result is kept exactly when its availability matches the flag |
| InventoryTools.FlaggedPartition | src/tools/inventory-tools.ts:382-384 | available and unavailable counts add up to the number checked |
| InventoryTools.BuildStockQuery | src/tools/inventory-tools.ts:337-343 | the quantity, and the location only when given |
| InventoryTools.CheckStock | src/tools/inventory-tools.ts:335-368 | the loop sends one inventory lookup per code, in order, and collects exactly the per-code results |
| InventoryTools.SummaryAddsUp | src/tools/inventory-tools.ts:381-385 | the summary counts every code checked, split into available and unavailable |
| InventoryTools.FailedLookupUnavailable | src/tools/inventory-tools.ts:359-367 | a product whose lookup failed is never counted available |
| InventoryTools.AllInStock | src/tools/inventory-tools.ts:352-354 | when every lookup reports enough stock, every product is available |
| InventoryTools.AllFlagged | src/tools/inventory-tools.ts:383 | filtering keeps everything when every result is available |
| InventoryTools.HandleStockAvailability | src/tools/inventory-tools.ts:324-407 | bad arguments throw; otherwise one lookup per code, answered with the availability check |
| InventoryTools.HandledRequests | src/tools/inventory-tools.ts:138-154 | search and details send at most one request, the stock check one per product code, and every request is a GET |
| InventoryTools.HandleInventoryTools | src/tools/inventory-tools.ts:138-154 | an unknown name throws "Unknown inventory tool: <name>" before any request; an accepted name sends its handler's requests and settles with its handler's outcome (`Handled`: one lookup per code for the stock check) |
| ProductTools.ParseSearch | src/tools/product-tools.ts:16-23 | page bounds and defaults, and details default off |
| ProductTools.ParseDetail | src/tools/product-tools.ts:25-30 | the product code is required, and all three groups default on |
| ProductTools.ParseCategories | src/tools/product-tools.ts:32-36 | the depth lies between 1 and 5 and defaults to 3; products default off |
| ProductTools.SearchCatalogEntry | src/tools/product-tools.ts:43-81 | the advertised search tool matches its schema |
| ProductTools.DetailCatalogEntry | src/tools/product-tools.ts:82-110 | the advertised detail tool matches its schema |
| ProductTools.CategoryCatalogEntry | src/tools/product-tools.ts:111-135 | the advertised category tool matches its schema |
| ProductTools.CatalogNames | src/tools/product-tools.ts:41-137 | the catalog advertises exactly the names the switch accepts, in order, the third being "kibo_category_list" |
| ProductTools.Dispatch | src/tools/product-tools.ts:142-158 | a name is handled exactly when it is advertised; any other name throws "Unknown product tool: " and the name |
| ProductTools.BuildSearchQuery | src/tools/product-tools.ts:172-194 | the builder yields the search query |
| ProductTools.SearchQueryShape | src/tools/product-tools.ts:172-194 | the text query only when given, the unquoted category filter only when given, and brief or detailed fields by the flag |
| ProductTools.HandleSearch | src/tools/product-tools.ts:163-236 | one GET of the storefront products, answered with the products and pagination |
| ProductTools.BuildDetailFields | src/tools/product-tools.ts:249-275 | the builder yields the detail fields |
| ProductTools.DetailFieldsByFlag | src/tools/product-tools.ts:249-275 | base fields first, and each optional group exactly when its flag is set |
| ProductTools.DetailDefaults | src/tools/product-tools.ts:25-30 | with no flags given, all eighteen fields are requested |
| ProductTools.DetailUrl | src/tools/product-tools.ts:279 | a product URL lies under the storefront products path |
| ProductTools.DetailUrlIsOneSegment | src/tools/product-tools.ts:279 | whatever the product code, its encoding is exactly the last path segment |
| ProductTools.HandleDetails | src/tools/product-tools.ts:241-311 | one GET of the product's URL with the detail fields |
| ProductTools.BuildCategoryQuery | src/tools/product-tools.ts:324-345 | the builder yields the category query |
| ProductTools.CategoryQueryShape | src/tools/product-tools.ts:324-345 | the parent filter only when given, products exactly when asked for, and the depth never sent |
| ProductTools.CategoryData | src/tools/product-tools.ts:359-362 | the categories and total count, each falling back when absent; a `null` reply throws |
| ProductTools.HandleCategories | src/tools/product-tools.ts:316-382 | one GET of the storefront categories with the category query |
| ProductTools.HandleProductTools | src/tools/product-tools.ts:142-158 | an unknown name throws "Unknown product tool: <name>" before any request; an accepted name sends its handler's request and settles with its handler's outcome (`Handled`: a schema error throws first, otherwise that tool's GET, with the detail URL for details, and its envelope) |
| Server.Unset | src/index.ts:42 | at most one report per required variable |
| Server.UnsetMembers | src/index.ts:42 | a variable is reported exactly when it is required and unset or empty |
| Server.UnsetKeepsOrder | src/index.ts:42-44 | unset variables are reported in the order they are listed |
| Server.ValidateConfig | src/index.ts:33-58 | the configuration is accepted exactly when every required variable is set; otherwise the error lists the missing ones; the ids are parsed and the optional settings default to en-US, USD and info |
| Server.EmptyCountsAsMissing | src/index.ts:42 | an empty variable counts as missing |
| Server.EmptyEnvironment | src/index.ts:34-44 | with nothing set, the error lists all five variables in order |
| Server.ToolListNames | src/index.ts:83-95 | the twelve advertised names: product, order, customer, then inventory tools |
| Server.Route | src/index.ts:103-116 | a call is routed to the group whose prefix the name starts with, and to none when it starts with no prefix |
| Server.RouteOf | src/index.ts:103-110 | the prefixes exclude each other, so a name with a group's prefix goes to that group |
| Server.RoutedTools | src/index.ts:103-110 | ten of the advertised tools reach the group that advertises them |
| Server.UnroutableTools | src/index.ts:103-116 | "kibo_category_list" and "kibo_stock_availability" are advertised but routed nowhere |
| Server.RouteByCatalog | src/index.ts:83-95 | catalog routing picks a group whose catalog advertises the name |
| Server.CatalogRoutingIsComplete | src/index.ts:83-116 | catalog routing accepts exactly the advertised tools, each to a group whose switch handles it |
| Server.RoutingsAgree | src/index.ts:103-110 | where prefix routing reaches a group at all, it is the same group as catalog routing |
| Server.ToClient | src/index.ts:117-123 | a handler's result is passed on; a thrown error becomes an internal error with the message, or "Unknown error" |
| Server.RunGroup | src/index.ts:129-150 | the group's switch's requests and outcome are passed on (`GroupHandled`); a name the switch does not know throws that group's "Unknown … tool" error before any request |
| Server.CallTool | src/index.ts:98-124 | an unrouted name fails, without any request, with the internal error wrapping the method-not-found message; a routed name sends its group handler's requests, and the client receives the handler's result or its error as "Tool execution failed: <message>"; a name the group rejects fails as "Tool execution failed: Unknown … tool: <name>"; every failure is such an internal error |
| Server.AdvertisedButRejected | src/index.ts:111-123 | a call to "kibo_category_list" fails with "Tool execution failed: MCP error -32601: Unknown tool: kibo_category_list" |
| Server.CallToolFixed | src/index.ts:98-124 | with catalog routing, an unadvertised name fails with method-not-found itself and without any request; an advertised name sends its handler's requests and delivers its outcome as the as-written handler does |
| Server.FixedReachesEveryTool | src/index.ts:83-116 | with catalog routing, every advertised tool reaches a handler that accepts it |

## Left out

- Logging to the console, the stdio transport, `main` and the signal handlers are not modelled. `createServer` is modelled only through the configuration, the tool list and the call handler.
- Concurrency is modelled as interleavings of the token manager's steps (`BeginRefresh`, `CompleteRefresh`, `ConcurrentDemand`). JavaScript's event loop is not modelled.
- The HTTP client, its 30-second timeout and the network are not modelled. Each reply is an input of the handler that awaits it.
- The clock is a parameter. Dates are taken as their ISO text, and `Date` arithmetic is integer milliseconds.
- zod's error text is not modelled. A schema violation is a `SchemaError` naming the field.
- The JSON text layout of `JSON.stringify(…, null, 2)` is not modelled. An answer is the JSON value it prints, and key order is not kept.
- Js.Spread: spreading a string or an array reply into the order object would copy indexed properties. The model copies none.
- InventoryTools.AtLeast: the `>=` comparison of a stock figure is modelled for numbers, booleans and `null`. JavaScript's coercion of numeric strings and arrays is not modelled; any such value counts as not enough stock.
- Thrown error messages that the V8 engine writes itself, such as reading a property of `null`, are modelled by their wording only.
- The description text of each catalog property and the `items` schema of the array-valued property are not modelled. Tool names and descriptions, property types, bounds, defaults and required lists are.
- Numbers are integers: `Json.Num` and `JsNumber` hold integers only. JavaScript numbers are doubles, and zod's `z.number()` also accepts fractions for `customerAccountId`, `quantity`, `startIndex` and `pageSize`. The model does not capture such arguments, the filter text and stock comparison they lead to, or fractional values such as prices in reply bodies.
- BaseService.HandleError: the operation name is lower-cased for ASCII letters only (`ToLowerAscii`). `toLowerCase()` also lower-cases every other Unicode letter.
- Js.EncodeURIComponent: strings are sequences of Unicode scalar values, so a lone surrogate cannot be represented. The URIError "URI malformed" that `encodeURIComponent` throws for one is not modelled, in the order status, order details, stock and product handlers alike.
- The compiled `.js` copies of the source files are not modelled.

## Findings

| source | as written | input that shows it | evidently intended | confidence | as-written member | corrected member |
|---|---|---|---|---|---|---|
| src/index.ts:103-110 | calls are routed by the four name prefixes `kibo_product_`, `kibo_order_`, `kibo_customer_` and `kibo_inventory_` | a call to `kibo_category_list` or `kibo_stock_availability`, both advertised by the tool list | every advertised tool reaches the handler of the file that advertises it | not executed; high | Server.UnroutableTools | Server.CatalogRoutingIsComplete |
| src/index.ts:111-123 | the method-not-found error is thrown inside the `try`, so the `catch` re-throws it as an internal error | a call to `foo` fails with code -32603 and "Tool execution failed: MCP error -32601: Unknown tool: foo" | an unknown tool fails with code -32601 (method not found) | not executed; medium | Server.CallTool | Server.CallToolFixed |
