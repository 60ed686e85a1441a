/** The customer tools: search, account details and order history.
  *
  * Each handler takes the tool arguments and what the gateway's `request`
  * settles with, and returns the request it issues (none when the arguments
  * are rejected) and the tool's outcome. */
module CustomerTools {
  import opened Js
  import opened BaseService
  import opened ToolSupport
  import opened Auth

  // ---------------------------------------------------------------------
  // Schemas

  const SearchSchema: seq<FieldSchema> := [
    FieldSchema("emailAddress", StringKind, Optional, None, None),
    FieldSchema("firstName", StringKind, Optional, None, None),
    FieldSchema("lastName", StringKind, Optional, None, None),
    FieldSchema("customerNumber", StringKind, Optional, None, None),
    FieldSchema("isActive", BooleanKind, Optional, None, None),
    FieldSchema("startIndex", NumberKind, Defaulted(Num(0)), Some(0), None),
    FieldSchema("pageSize", NumberKind, Defaulted(Num(20)), Some(1), Some(200)),
    FieldSchema("sortBy", StringKind, Optional, None, None)]

  const DetailSchema: seq<FieldSchema> := [
    FieldSchema("customerAccountId", NumberKind, Required, None, None),
    FieldSchema("includeAttributes", BooleanKind, Defaulted(Bool(true)), None, None),
    FieldSchema("includeContacts", BooleanKind, Defaulted(Bool(true)), None, None),
    FieldSchema("includeCards", BooleanKind, Defaulted(Bool(false)), None, None)]

  const HistorySchema: seq<FieldSchema> := [
    FieldSchema("customerAccountId", NumberKind, Required, None, None),
    FieldSchema("startDate", StringKind, Optional, None, None),
    FieldSchema("endDate", StringKind, Optional, None, None),
    FieldSchema("status", StringKind, Optional, None, None),
    FieldSchema("startIndex", NumberKind, Defaulted(Num(0)), Some(0), None),
    FieldSchema("pageSize", NumberKind, Defaulted(Num(20)), Some(1), Some(200))]

  datatype SearchParams = SearchParams(
    emailAddress: Option<string>, firstName: Option<string>, lastName: Option<string>,
    customerNumber: Option<string>, isActive: Option<bool>,
    startIndex: int, pageSize: int, sortBy: Option<string>)

  datatype DetailParams = DetailParams(customerAccountId: int, includeAttributes: bool, includeContacts: bool, includeCards: bool)

  datatype HistoryParams = HistoryParams(
    customerAccountId: int, startDate: Option<string>, endDate: Option<string>, status: Option<string>,
    startIndex: int, pageSize: int)

  /** `CustomerSearchSchema.parse(args)`. */
  function ParseSearch(args: Option<Json>): (r: Result<SearchParams, Thrown>)
    ensures r.Ok? ==> 0 <= r.value.startIndex && 1 <= r.value.pageSize <= 200
    ensures r.Ok? && "startIndex" !in ArgsOf(args) ==> r.value.startIndex == 0
    ensures r.Ok? && "pageSize" !in ArgsOf(args) ==> r.value.pageSize == 20
    ensures r.Ok? && "isActive" in ArgsOf(args) ==> r.value.isActive.Some? && ArgsOf(args)["isActive"] == Bool(r.value.isActive.value)
  {
    var m :- Parse(SearchSchema, args);
    ParsedNumber(SearchSchema, args, 5);
    ParsedNumber(SearchSchema, args, 6);
    ParsedBool(SearchSchema, args, 4);
    Ok(SearchParams(StringAt(m, "emailAddress"), StringAt(m, "firstName"), StringAt(m, "lastName"),
                    StringAt(m, "customerNumber"), OptBoolAt(m, "isActive"),
                    NumberAt(m, "startIndex"), NumberAt(m, "pageSize"), StringAt(m, "sortBy")))
  }

  /** `CustomerDetailSchema.parse(args)`. */
  function ParseDetail(args: Option<Json>): (r: Result<DetailParams, Thrown>)
    ensures r.Ok? ==> "customerAccountId" in ArgsOf(args) && ArgsOf(args)["customerAccountId"] == Num(r.value.customerAccountId)
    ensures r.Ok? && "includeAttributes" !in ArgsOf(args) ==> r.value.includeAttributes
    ensures r.Ok? && "includeContacts" !in ArgsOf(args) ==> r.value.includeContacts
    ensures r.Ok? && "includeCards" !in ArgsOf(args) ==> !r.value.includeCards
  {
    var m :- Parse(DetailSchema, args);
    ParsedNumber(DetailSchema, args, 0);
    ParsedBool(DetailSchema, args, 1);
    ParsedBool(DetailSchema, args, 2);
    ParsedBool(DetailSchema, args, 3);
    Ok(DetailParams(NumberAt(m, "customerAccountId"), BoolAt(m, "includeAttributes"),
                    BoolAt(m, "includeContacts"), BoolAt(m, "includeCards")))
  }

  /** `CustomerOrderHistorySchema.parse(args)`. */
  function ParseHistory(args: Option<Json>): (r: Result<HistoryParams, Thrown>)
    ensures r.Ok? ==> "customerAccountId" in ArgsOf(args) && ArgsOf(args)["customerAccountId"] == Num(r.value.customerAccountId)
    ensures r.Ok? ==> 0 <= r.value.startIndex && 1 <= r.value.pageSize <= 200
    ensures r.Ok? && "startIndex" !in ArgsOf(args) ==> r.value.startIndex == 0
    ensures r.Ok? && "pageSize" !in ArgsOf(args) ==> r.value.pageSize == 20
  {
    var m :- Parse(HistorySchema, args);
    ParsedNumber(HistorySchema, args, 0);
    ParsedNumber(HistorySchema, args, 4);
    ParsedNumber(HistorySchema, args, 5);
    Ok(HistoryParams(NumberAt(m, "customerAccountId"), StringAt(m, "startDate"), StringAt(m, "endDate"),
                     StringAt(m, "status"), NumberAt(m, "startIndex"), NumberAt(m, "pageSize")))
  }

  // ---------------------------------------------------------------------
  // Catalog and dispatch

  const Catalog: seq<Tool> := [
    Tool("kibo_customer_search",
         "Search for customers with filtering options including email, name, and status",
         [Property("emailAddress", "string", None, None, None),
          Property("firstName", "string", None, None, None),
          Property("lastName", "string", None, None, None),
          Property("customerNumber", "string", None, None, None),
          Property("isActive", "boolean", None, None, None),
          Property("startIndex", "number", Some(0), None, Some(Num(0))),
          Property("pageSize", "number", Some(1), Some(200), Some(Num(20))),
          Property("sortBy", "string", None, None, None)],
         []),
    Tool("kibo_customer_details",
         "Get detailed information about a specific customer including attributes and contacts",
         [Property("customerAccountId", "number", None, None, None),
          Property("includeAttributes", "boolean", None, None, Some(Bool(true))),
          Property("includeContacts", "boolean", None, None, Some(Bool(true))),
          Property("includeCards", "boolean", None, None, Some(Bool(false)))],
         ["customerAccountId"]),
    Tool("kibo_customer_order_history",
         "Get order history for a specific customer with filtering options",
         [Property("customerAccountId", "number", None, None, None),
          Property("startDate", "string", None, None, None),
          Property("endDate", "string", None, None, None),
          Property("status", "string", None, None, None),
          Property("startIndex", "number", Some(0), None, Some(Num(0))),
          Property("pageSize", "number", Some(1), Some(200), Some(Num(20)))],
         ["customerAccountId"])]

  /** Each advertised input schema matches the one its handler enforces. */
  lemma SearchCatalogEntry()
    ensures Describes(Catalog[0], SearchSchema)
  {
    SearchProperties();
    assert Catalog[0].required == RequiredNames(SearchSchema);
  }

  lemma SearchProperties()
    ensures |Catalog[0].properties| == |SearchSchema|
    ensures forall i :: 0 <= i < |SearchSchema| ==> Catalog[0].properties[i] == Advertised(SearchSchema[i])
  {
  }

  lemma DetailCatalogEntry()
    ensures Describes(Catalog[1], DetailSchema)
  {
  }

  lemma HistoryCatalogEntry()
    ensures Describes(Catalog[2], HistorySchema)
  {
    HistoryProperties();
    assert Catalog[2].required == RequiredNames(HistorySchema);
  }

  lemma HistoryProperties()
    ensures |Catalog[2].properties| == |HistorySchema|
    ensures forall i :: 0 <= i < |HistorySchema| ==> Catalog[2].properties[i] == Advertised(HistorySchema[i])
  {
  }

  datatype Handler = Search | Details | OrderHistory {
    /** The position of the handler's tool in the catalog. */
    function Index(): nat { match this case Search => 0 case Details => 1 case OrderHistory => 2 }
  }

  /** The advertised tool names, in catalog order. */
  const ToolNames := ["kibo_customer_search", "kibo_customer_details", "kibo_customer_order_history"]

  lemma CatalogNames()
    ensures Names(Catalog) == ToolNames
  {
  }

  /** `handleCustomerTools`' switch. */
  function Dispatch(name: string): (r: Result<Handler, Thrown>)
    ensures r.Ok? <==> name in ToolNames
    ensures r.Ok? ==> ToolNames[r.value.Index()] == name
    ensures r.Err? ==> r.error == Error("Unknown customer tool: " + name)
  {
    if name == "kibo_customer_search" then Ok(Search)
    else if name == "kibo_customer_details" then Ok(Details)
    else if name == "kibo_customer_order_history" then Ok(OrderHistory)
    else Err(Error("Unknown customer tool: " + name))
  }

  // ---------------------------------------------------------------------
  // kibo_customer_search

  /** The rendered search clauses: each criterion that is given, in the
    * order the handler tests them. */
  function SearchFilters(p: SearchParams): seq<string>
  {
    When(Filled(p.emailAddress), [Render(Clause("emailAddress", "eq", Quoted(p.emailAddress.GetOr(""))))])
    + When(Filled(p.firstName), [Render(Clause("firstName", "eq", Quoted(p.firstName.GetOr(""))))])
    + When(Filled(p.lastName), [Render(Clause("lastName", "eq", Quoted(p.lastName.GetOr(""))))])
    + When(Filled(p.customerNumber), [Render(Clause("customerNumber", "eq", Quoted(p.customerNumber.GetOr(""))))])
    + When(p.isActive.Some?, [Render(Clause("isActive", "eq", Bare(BoolText(p.isActive.GetOr(false)))))])
  }

  const SearchFields := "items(id,customerNumber,emailAddress,firstName,lastName,isActive,customerType,auditInfo),totalCount,pageCount,pageSize,startIndex"

  /** The query parameters of a customer search. */
  function SearchQuery(p: SearchParams): map<string, Json>
  {
    var q := WithFilter(map["startIndex" := Num(p.startIndex), "pageSize" := Num(p.pageSize)], SearchFilters(p));
    WithText(q, "sortBy", p.sortBy)["responseFields" := Str(SearchFields)]
  }

  /** The clauses, pushed the way the handler does. */
  method BuildSearchFilters(p: SearchParams) returns (filters: seq<string>)
    ensures filters == SearchFilters(p)
  {
    filters := [];
    if Filled(p.emailAddress) {
      filters := filters + [Render(Clause("emailAddress", "eq", Quoted(p.emailAddress.value)))];
    }
    ghost var upTo := When(Filled(p.emailAddress), [Render(Clause("emailAddress", "eq", Quoted(p.emailAddress.GetOr(""))))]);
    assert filters == upTo;
    if Filled(p.firstName) {
      filters := filters + [Render(Clause("firstName", "eq", Quoted(p.firstName.value)))];
    }
    upTo := upTo + When(Filled(p.firstName), [Render(Clause("firstName", "eq", Quoted(p.firstName.GetOr(""))))]);
    assert filters == upTo;
    if Filled(p.lastName) {
      filters := filters + [Render(Clause("lastName", "eq", Quoted(p.lastName.value)))];
    }
    upTo := upTo + When(Filled(p.lastName), [Render(Clause("lastName", "eq", Quoted(p.lastName.GetOr(""))))]);
    assert filters == upTo;
    if Filled(p.customerNumber) {
      filters := filters + [Render(Clause("customerNumber", "eq", Quoted(p.customerNumber.value)))];
    }
    upTo := upTo + When(Filled(p.customerNumber), [Render(Clause("customerNumber", "eq", Quoted(p.customerNumber.GetOr(""))))]);
    assert filters == upTo;
    if p.isActive.Some? {
      filters := filters + [Render(Clause("isActive", "eq", Bare(BoolText(p.isActive.value))))];
    }
  }

  /** The query parameters, assembled the way the handler does. */
  method BuildSearchQuery(p: SearchParams) returns (q: map<string, Json>)
    ensures q == SearchQuery(p)
  {
    q := map["startIndex" := Num(p.startIndex), "pageSize" := Num(p.pageSize)];
    var filters := BuildSearchFilters(p);
    if |filters| > 0 {
      q := q["filter" := Str(Join(filters, " and "))];
    }
    if Filled(p.sortBy) {
      q := q["sortBy" := Str(p.sortBy.value)];
    }
    q := q["responseFields" := Str(SearchFields)];
  }

  /** The filter is sent exactly when some criterion is given; `isActive`
    * counts when it is false, and then asks for inactive customers. */
  lemma SearchFilterPresence(p: SearchParams)
    ensures "filter" in SearchQuery(p) <==>
              Filled(p.emailAddress) || Filled(p.firstName) || Filled(p.lastName)
              || Filled(p.customerNumber) || p.isActive.Some?
    ensures p.isActive == Some(false) ==> "isActive eq false" in SearchFilters(p)
  {
    if p.isActive == Some(false) {
      var last := Render(Clause("isActive", "eq", Bare(BoolText(false))));
      assert last == "isActive eq false";
      var fs := SearchFilters(p);
      assert fs[|fs| - 1] == last;
      assert last in fs;
    }
  }

  /** With every criterion given, the clauses come in the declared order. */
  lemma SearchClauseOrder(p: SearchParams)
    requires Filled(p.emailAddress) && Filled(p.firstName) && Filled(p.lastName)
    requires Filled(p.customerNumber) && p.isActive.Some?
    ensures SearchQuery(p)["filter"] == Str(Join(
              [Render(Clause("emailAddress", "eq", Quoted(p.emailAddress.value))),
               Render(Clause("firstName", "eq", Quoted(p.firstName.value))),
               Render(Clause("lastName", "eq", Quoted(p.lastName.value))),
               Render(Clause("customerNumber", "eq", Quoted(p.customerNumber.value))),
               Render(Clause("isActive", "eq", Bare(BoolText(p.isActive.value))))], " and "))
  {
    assert SearchFilters(p) ==
      [Render(Clause("emailAddress", "eq", Quoted(p.emailAddress.value))),
       Render(Clause("firstName", "eq", Quoted(p.firstName.value))),
       Render(Clause("lastName", "eq", Quoted(p.lastName.value))),
       Render(Clause("customerNumber", "eq", Quoted(p.customerNumber.value))),
       Render(Clause("isActive", "eq", Bare(BoolText(p.isActive.value))))];
    var q := WithFilter(map["startIndex" := Num(p.startIndex), "pageSize" := Num(p.pageSize)], SearchFilters(p));
    assert q["filter"] == Str(Join(SearchFilters(p), " and "));
    assert WithText(q, "sortBy", p.sortBy)["filter"] == q["filter"];
    assert SearchQuery(p) == WithText(q, "sortBy", p.sortBy)["responseFields" := Str(SearchFields)];
  }

  /** `handleCustomerSearch(args)`. */
  method HandleSearch(args: Option<Json>, answer: Result<Json, Thrown>) returns (call: Option<ApiRequest>, out: ToolOutcome)
    ensures ParseSearch(args).Err? ==> call.None? && out == Threw(ParseSearch(args).error)
    ensures ParseSearch(args).Ok? ==>
              && call == Some(Call("GET", "/api/commerce/customer/accounts", SearchQuery(ParseSearch(args).value), None))
              && out == Returned(Settle(AndThen(answer, "customers"), "Failed to search customers"))
  {
    var parsed := ParseSearch(args);
    if parsed.Err? {
      return None, Threw(parsed.error);
    }
    var q := BuildSearchQuery(parsed.value);
    call := Some(Call("GET", "/api/commerce/customer/accounts", q, None));
    out := Returned(Settle(AndThen(answer, "customers"), "Failed to search customers"));
  }

  // ---------------------------------------------------------------------
  // kibo_customer_details

  const DetailBaseFields := ["id", "customerNumber", "emailAddress", "firstName", "lastName",
                             "middleNameOrInitial", "companyOrOrganization", "customerType", "isActive",
                             "acceptsMarketing", "hasExternalPassword", "isAnonymous", "auditInfo"]

  /** The response fields of a details request. */
  function DetailFields(p: DetailParams): seq<string>
  {
    DetailBaseFields + When(p.includeAttributes, ["attributes"]) + When(p.includeContacts, ["contacts"])
    + When(p.includeCards, ["cards"])
  }

  /** The response fields, pushed the way the handler does. */
  method BuildDetailFields(p: DetailParams) returns (fields: seq<string>)
    ensures fields == DetailFields(p)
  {
    fields := DetailBaseFields;
    if p.includeAttributes {
      fields := fields + ["attributes"];
    }
    if p.includeContacts {
      fields := fields + ["contacts"];
    }
    if p.includeCards {
      fields := fields + ["cards"];
    }
  }

  /** The 13 base fields always come first; each optional group is present
    * exactly when its flag is set. */
  lemma DetailFieldsByFlag(p: DetailParams)
    ensures DetailFields(p)[..13] == DetailBaseFields
    ensures "attributes" in DetailFields(p) <==> p.includeAttributes
    ensures "contacts" in DetailFields(p) <==> p.includeContacts
    ensures "cards" in DetailFields(p) <==> p.includeCards
  {
    var f := DetailFields(p);
    var groups := When(p.includeAttributes, ["attributes"]) + When(p.includeContacts, ["contacts"])
                  + When(p.includeCards, ["cards"]);
    assert f == DetailBaseFields + groups;
    OutsideBase(groups, f);
  }

  /** None of the optional names is a base field. */
  lemma OutsideBase(groups: seq<string>, f: seq<string>)
    requires f == DetailBaseFields + groups
    ensures forall x :: x in ["attributes", "contacts", "cards"] ==> (x in f <==> x in groups)
  {
    forall x | x in ["attributes", "contacts", "cards"]
      ensures x !in DetailBaseFields
    {
    }
  }

  /** With no flags given, attributes and contacts are requested and saved
    * cards are not. */
  lemma DetailDefaults(args: Option<Json>)
    requires ParseDetail(args).Ok?
    requires "includeAttributes" !in ArgsOf(args) && "includeContacts" !in ArgsOf(args) && "includeCards" !in ArgsOf(args)
    ensures DetailFields(ParseDetail(args).value) == DetailBaseFields + ["attributes", "contacts"]
  {
  }

  function DetailUrl(id: int): string
  {
    "/api/commerce/customer/accounts/" + IntToString(id)
  }

  /** `handleCustomerDetails(args)`. */
  method HandleDetails(args: Option<Json>, answer: Result<Json, Thrown>) returns (call: Option<ApiRequest>, out: ToolOutcome)
    ensures ParseDetail(args).Err? ==> call.None? && out == Threw(ParseDetail(args).error)
    ensures ParseDetail(args).Ok? ==> var p := ParseDetail(args).value;
              && call == Some(Call("GET", DetailUrl(p.customerAccountId),
                                   map["responseFields" := Str(Join(DetailFields(p), ","))], None))
              && out == Returned(Settle(answer, "Failed to retrieve customer details for ID: " + IntToString(p.customerAccountId)))
  {
    var parsed := ParseDetail(args);
    if parsed.Err? {
      return None, Threw(parsed.error);
    }
    var p := parsed.value;
    var fields := BuildDetailFields(p);
    call := Some(Call("GET", DetailUrl(p.customerAccountId), map["responseFields" := Str(Join(fields, ","))], None));
    out := Returned(Settle(answer, "Failed to retrieve customer details for ID: " + IntToString(p.customerAccountId)));
  }

  // ---------------------------------------------------------------------
  // kibo_customer_order_history

  /** The order-history clauses: the account always, then the optional ones. */
  function HistoryFilters(p: HistoryParams): seq<string>
  {
    [Render(Clause("customerAccountId", "eq", Bare(IntToString(p.customerAccountId))))]
    + When(Filled(p.status), [Render(Clause("status", "eq", Quoted(p.status.GetOr(""))))])
    + When(Filled(p.startDate), [Render(Clause("submittedDate", "ge", DateTime(p.startDate.GetOr(""))))])
    + When(Filled(p.endDate), [Render(Clause("submittedDate", "le", DateTime(p.endDate.GetOr(""))))])
  }

  const HistoryFields := "items(orderNumber,status,submittedDate,total,subtotal,taxTotal,shippingTotal,items),totalCount,pageCount,pageSize,startIndex"

  function HistoryQuery(p: HistoryParams): map<string, Json>
  {
    map["startIndex" := Num(p.startIndex), "pageSize" := Num(p.pageSize),
        "filter" := Str(Join(HistoryFilters(p), " and ")),
        "responseFields" := Str(HistoryFields),
        "sortBy" := Str("submittedDate desc")]
  }

  /** The query parameters, assembled the way the handler does. */
  method BuildHistoryQuery(p: HistoryParams) returns (q: map<string, Json>)
    ensures q == HistoryQuery(p)
  {
    q := map["startIndex" := Num(p.startIndex), "pageSize" := Num(p.pageSize)];
    var filters := [Render(Clause("customerAccountId", "eq", Bare(IntToString(p.customerAccountId))))];
    if Filled(p.status) {
      filters := filters + [Render(Clause("status", "eq", Quoted(p.status.value)))];
    }
    if Filled(p.startDate) {
      filters := filters + [Render(Clause("submittedDate", "ge", DateTime(p.startDate.value)))];
    }
    if Filled(p.endDate) {
      filters := filters + [Render(Clause("submittedDate", "le", DateTime(p.endDate.value)))];
    }
    assert filters == HistoryFilters(p);
    q := q["filter" := Str(Join(filters, " and "))];
    q := q["responseFields" := Str(HistoryFields)];
    q := q["sortBy" := Str("submittedDate desc")];
  }

  /** The history filter always starts with the account clause and is
    * always sent, newest orders first. */
  lemma HistoryFilterStartsWithAccount(p: HistoryParams)
    ensures StartsWith(HistoryQuery(p)["filter"].s, "customerAccountId eq " + IntToString(p.customerAccountId))
    ensures HistoryQuery(p)["sortBy"] == Str("submittedDate desc")
  {
    var first := Render(Clause("customerAccountId", "eq", Bare(IntToString(p.customerAccountId))));
    var parts := HistoryFilters(p);
    assert parts[0] == first;
    assert first == "customerAccountId eq " + IntToString(p.customerAccountId);
    if |parts| > 1 {
      assert Join(parts, " and ") == first + (" and " + Join(parts[1..], " and "));
    }
  }

  /** `handleCustomerOrderHistory(args)`. */
  method HandleOrderHistory(args: Option<Json>, answer: Result<Json, Thrown>) returns (call: Option<ApiRequest>, out: ToolOutcome)
    ensures ParseHistory(args).Err? ==> call.None? && out == Threw(ParseHistory(args).error)
    ensures ParseHistory(args).Ok? ==> var p := ParseHistory(args).value;
              && call == Some(Call("GET", "/api/commerce/orders", HistoryQuery(p), None))
              && out == Returned(Settle(AndThen(answer, "orders"),
                                        "Failed to retrieve order history for customer ID: " + IntToString(p.customerAccountId)))
  {
    var parsed := ParseHistory(args);
    if parsed.Err? {
      return None, Threw(parsed.error);
    }
    var p := parsed.value;
    var q := BuildHistoryQuery(p);
    call := Some(Call("GET", "/api/commerce/orders", q, None));
    out := Returned(Settle(AndThen(answer, "orders"),
                           "Failed to retrieve order history for customer ID: " + IntToString(p.customerAccountId)));
  }

  // ---------------------------------------------------------------------
  // handleCustomerTools

  /** What `handleCustomerTools(name, args)` sends and settles with, tool by
    * tool, when its one request settles with `answer`. */
  function Handled(name: string, args: Option<Json>, answer: Result<Json, Thrown>): Handling
  {
    match Dispatch(name)
    case Err(e) => Handling([], Threw(e))
    case Ok(Search) =>
      (match ParseSearch(args)
       case Err(e) => Handling([], Threw(e))
       case Ok(p) =>
         Handling([Call("GET", "/api/commerce/customer/accounts", SearchQuery(p), None)],
                  Returned(Settle(AndThen(answer, "customers"), "Failed to search customers"))))
    case Ok(Details) =>
      (match ParseDetail(args)
       case Err(e) => Handling([], Threw(e))
       case Ok(p) =>
         Handling([Call("GET", DetailUrl(p.customerAccountId), map["responseFields" := Str(Join(DetailFields(p), ","))], None)],
                  Returned(Settle(answer, "Failed to retrieve customer details for ID: " + IntToString(p.customerAccountId)))))
    case Ok(OrderHistory) =>
      (match ParseHistory(args)
       case Err(e) => Handling([], Threw(e))
       case Ok(p) =>
         Handling([Call("GET", "/api/commerce/orders", HistoryQuery(p), None)],
                  Returned(Settle(AndThen(answer, "orders"),
                                  "Failed to retrieve order history for customer ID: " + IntToString(p.customerAccountId)))))
  }

  /** `handleCustomerTools(name, args)`: an unknown name throws before any
    * request, and the switch passes on its handler's request and outcome. */
  method HandleCustomerTools(name: string, args: Option<Json>, answer: Result<Json, Thrown>)
    returns (call: Option<ApiRequest>, out: ToolOutcome)
    ensures Handling(Sent(call), out) == Handled(name, args, answer)
    ensures Dispatch(name).Err? ==> call.None? && out == Threw(Error("Unknown customer tool: " + name))
    ensures Dispatch(name) == Ok(Search) ==> call.Some? ==> call.value.url == "/api/commerce/customer/accounts"
    ensures Dispatch(name) == Ok(OrderHistory) ==> call.Some? ==> call.value.url == "/api/commerce/orders"
    ensures call.Some? ==> call.value.verb == "GET"
  {
    var handler := Dispatch(name);
    if handler.Err? {
      return None, Threw(handler.error);
    }
    match handler.value {
      case Search => call, out := HandleSearch(args, answer);
      case Details => call, out := HandleDetails(args, answer);
      case OrderHistory => call, out := HandleOrderHistory(args, answer);
    }
  }
}
