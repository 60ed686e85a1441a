/** The order tools: search, order details and status update.
  *
  * Search and details issue one request, as the customer tools do. A status
  * update reads the order, merges the new status into it and writes it
  * back, so its handler takes what both requests settle with and returns
  * the requests it issues in order. */
module OrderTools {
  import opened Js
  import opened BaseService
  import opened ToolSupport
  import opened Auth

  // ---------------------------------------------------------------------
  // Schemas

  const SearchSchema: seq<FieldSchema> := [
    FieldSchema("customerEmailAddress", StringKind, Optional, None, None),
    FieldSchema("status", StringKind, Optional, None, None),
    FieldSchema("startDate", StringKind, Optional, None, None),
    FieldSchema("endDate", StringKind, Optional, None, None),
    FieldSchema("orderNumber", StringKind, Optional, None, None),
    FieldSchema("startIndex", NumberKind, Defaulted(Num(0)), Some(0), None),
    FieldSchema("pageSize", NumberKind, Defaulted(Num(20)), Some(1), Some(200)),
    FieldSchema("sortBy", StringKind, Optional, None, None)]

  const DetailSchema: seq<FieldSchema> := [
    FieldSchema("orderNumber", StringKind, Required, None, None),
    FieldSchema("includeItems", BooleanKind, Defaulted(Bool(true)), None, None),
    FieldSchema("includePayments", BooleanKind, Defaulted(Bool(true)), None, None),
    FieldSchema("includeFulfillment", BooleanKind, Defaulted(Bool(true)), None, None)]

  const StatusSchema: seq<FieldSchema> := [
    FieldSchema("orderNumber", StringKind, Required, None, None),
    FieldSchema("status", StringKind, Required, None, None),
    FieldSchema("note", StringKind, Optional, None, None)]

  datatype SearchParams = SearchParams(
    customerEmailAddress: Option<string>, status: Option<string>, startDate: Option<string>,
    endDate: Option<string>, orderNumber: Option<string>,
    startIndex: int, pageSize: int, sortBy: Option<string>)

  datatype DetailParams = DetailParams(orderNumber: string, includeItems: bool, includePayments: bool, includeFulfillment: bool)

  datatype StatusParams = StatusParams(orderNumber: string, status: string, note: Option<string>)

  /** `OrderSearchSchema.parse(args)`. */
  function ParseSearch(args: Option<Json>): (r: Result<SearchParams, Thrown>)
    ensures r.Ok? ==> 0 <= r.value.startIndex && 1 <= r.value.pageSize <= 200
    ensures r.Ok? && "startIndex" !in ArgsOf(args) ==> r.value.startIndex == 0
    ensures r.Ok? && "pageSize" !in ArgsOf(args) ==> r.value.pageSize == 20
    ensures r.Ok? && "status" in ArgsOf(args) ==> r.value.status.Some? && ArgsOf(args)["status"] == Str(r.value.status.value)
  {
    var m :- Parse(SearchSchema, args);
    ParsedNumber(SearchSchema, args, 5);
    ParsedNumber(SearchSchema, args, 6);
    ParsedString(SearchSchema, args, 1);
    Ok(SearchParams(StringAt(m, "customerEmailAddress"), StringAt(m, "status"), StringAt(m, "startDate"),
                    StringAt(m, "endDate"), StringAt(m, "orderNumber"),
                    NumberAt(m, "startIndex"), NumberAt(m, "pageSize"), StringAt(m, "sortBy")))
  }

  /** `OrderDetailSchema.parse(args)`. */
  function ParseDetail(args: Option<Json>): (r: Result<DetailParams, Thrown>)
    ensures r.Ok? ==> "orderNumber" in ArgsOf(args) && ArgsOf(args)["orderNumber"] == Str(r.value.orderNumber)
    ensures r.Ok? && "includeItems" !in ArgsOf(args) ==> r.value.includeItems
    ensures r.Ok? && "includePayments" !in ArgsOf(args) ==> r.value.includePayments
    ensures r.Ok? && "includeFulfillment" !in ArgsOf(args) ==> r.value.includeFulfillment
  {
    var m :- Parse(DetailSchema, args);
    ParsedString(DetailSchema, args, 0);
    ParsedBool(DetailSchema, args, 1);
    ParsedBool(DetailSchema, args, 2);
    ParsedBool(DetailSchema, args, 3);
    Ok(DetailParams(StringAt(m, "orderNumber").GetOr(""), BoolAt(m, "includeItems"),
                    BoolAt(m, "includePayments"), BoolAt(m, "includeFulfillment")))
  }

  /** `OrderStatusUpdateSchema.parse(args)`. */
  function ParseStatus(args: Option<Json>): (r: Result<StatusParams, Thrown>)
    ensures r.Ok? ==> "orderNumber" in ArgsOf(args) && ArgsOf(args)["orderNumber"] == Str(r.value.orderNumber)
    ensures r.Ok? ==> "status" in ArgsOf(args) && ArgsOf(args)["status"] == Str(r.value.status)
    ensures r.Ok? ==> ("note" in ArgsOf(args) <==> r.value.note.Some?)
    ensures r.Ok? && r.value.note.Some? ==> ArgsOf(args)["note"] == Str(r.value.note.value)
  {
    var m :- Parse(StatusSchema, args);
    ParsedString(StatusSchema, args, 0);
    ParsedString(StatusSchema, args, 1);
    ParsedString(StatusSchema, args, 2);
    Ok(StatusParams(StringAt(m, "orderNumber").GetOr(""), StringAt(m, "status").GetOr(""), StringAt(m, "note")))
  }

  // ---------------------------------------------------------------------
  // Catalog and dispatch

  const Catalog: seq<Tool> := [
    Tool("kibo_order_search",
         "Search for orders with filtering options including customer email, status, and date range",
         [Property("customerEmailAddress", "string", None, None, None),
          Property("status", "string", None, None, None),
          Property("startDate", "string", None, None, None),
          Property("endDate", "string", None, None, None),
          Property("orderNumber", "string", None, None, None),
          Property("startIndex", "number", Some(0), None, Some(Num(0))),
          Property("pageSize", "number", Some(1), Some(200), Some(Num(20))),
          Property("sortBy", "string", None, None, None)],
         []),
    Tool("kibo_order_details",
         "Get detailed information about a specific order including items, payments, and fulfillment",
         [Property("orderNumber", "string", None, None, None),
          Property("includeItems", "boolean", None, None, Some(Bool(true))),
          Property("includePayments", "boolean", None, None, Some(Bool(true))),
          Property("includeFulfillment", "boolean", None, None, Some(Bool(true)))],
         ["orderNumber"]),
    Tool("kibo_order_status_update",
         "Update the status of an order with optional notes",
         [Property("orderNumber", "string", None, None, None),
          Property("status", "string", None, None, None),
          Property("note", "string", None, None, None)],
         ["orderNumber", "status"])]

  /** Each advertised input schema matches the one its handler enforces. */
  lemma SearchCatalogEntry()
    ensures Describes(Catalog[0], SearchSchema)
  {
    SearchProperties();
    assert Catalog[0].required == RequiredNames(SearchSchema);
  }

  lemma SearchProperties()
    ensures |Catalog[0].properties| == |SearchSchema|
    ensures forall i :: 0 <= i < |SearchSchema| ==> Catalog[0].properties[i] == Advertised(SearchSchema[i])
  {
  }

  lemma DetailCatalogEntry()
    ensures Describes(Catalog[1], DetailSchema)
  {
  }

  lemma StatusCatalogEntry()
    ensures Describes(Catalog[2], StatusSchema)
  {
  }

  datatype Handler = Search | Details | StatusUpdate {
    /** The position of the handler's tool in the catalog. */
    function Index(): nat { match this case Search => 0 case Details => 1 case StatusUpdate => 2 }
  }

  /** The advertised tool names, in catalog order. */
  const ToolNames := ["kibo_order_search", "kibo_order_details", "kibo_order_status_update"]

  lemma CatalogNames()
    ensures Names(Catalog) == ToolNames
  {
  }

  /** `handleOrderTools`' switch. */
  function Dispatch(name: string): (r: Result<Handler, Thrown>)
    ensures r.Ok? <==> name in ToolNames
    ensures r.Ok? ==> ToolNames[r.value.Index()] == name
    ensures r.Err? ==> r.error == Error("Unknown order tool: " + name)
  {
    if name == "kibo_order_search" then Ok(Search)
    else if name == "kibo_order_details" then Ok(Details)
    else if name == "kibo_order_status_update" then Ok(StatusUpdate)
    else Err(Error("Unknown order tool: " + name))
  }

  /** The address of one order; the order number is percent-encoded. */
  function OrderUrl(orderNumber: string): (r: string)
    ensures StartsWith(r, "/api/commerce/orders/")
  {
    "/api/commerce/orders/" + EncodeURIComponent(orderNumber)
  }

  /** An order number cannot leave the orders collection: whatever it
    * holds, the path segment after the prefix is URL-safe. */
  lemma OrderUrlIsOneSegment(orderNumber: string)
    ensures var tail := OrderUrl(orderNumber)[|"/api/commerce/orders/"|..];
            forall i :: 0 <= i < |tail| ==> tail[i] != '/' && tail[i] != '?' && tail[i] != '#'
  {
    EncodedIsUrlSafe(orderNumber);
    assert OrderUrl(orderNumber)[|"/api/commerce/orders/"|..] == EncodeURIComponent(orderNumber);
  }

  // ---------------------------------------------------------------------
  // kibo_order_search

  /** The rendered search clauses: each criterion that is given, in the
    * order the handler tests them. */
  function SearchFilters(p: SearchParams): seq<string>
  {
    When(Filled(p.customerEmailAddress), [Render(Clause("customerAccount.emailAddress", "eq", Quoted(p.customerEmailAddress.GetOr(""))))])
    + When(Filled(p.status), [Render(Clause("status", "eq", Quoted(p.status.GetOr(""))))])
    + When(Filled(p.orderNumber), [Render(Clause("orderNumber", "eq", Quoted(p.orderNumber.GetOr(""))))])
    + When(Filled(p.startDate), [Render(Clause("submittedDate", "ge", DateTime(p.startDate.GetOr(""))))])
    + When(Filled(p.endDate), [Render(Clause("submittedDate", "le", DateTime(p.endDate.GetOr(""))))])
  }

  const SearchFields := "items(orderNumber,status,submittedDate,total,customerAccount,billingInfo,fulfillmentInfo),totalCount,pageCount,pageSize,startIndex"

  /** The query parameters of an order search. */
  function SearchQuery(p: SearchParams): map<string, Json>
  {
    var q := WithFilter(map["startIndex" := Num(p.startIndex), "pageSize" := Num(p.pageSize)], SearchFilters(p));
    WithText(q, "sortBy", p.sortBy)["responseFields" := Str(SearchFields)]
  }

  /** The clauses, pushed the way the handler does. */
  method BuildSearchFilters(p: SearchParams) returns (filters: seq<string>)
    ensures filters == SearchFilters(p)
  {
    filters := [];
    if Filled(p.customerEmailAddress) {
      filters := filters + [Render(Clause("customerAccount.emailAddress", "eq", Quoted(p.customerEmailAddress.value)))];
    }
    ghost var upTo := When(Filled(p.customerEmailAddress), [Render(Clause("customerAccount.emailAddress", "eq", Quoted(p.customerEmailAddress.GetOr(""))))]);
    assert filters == upTo;
    if Filled(p.status) {
      filters := filters + [Render(Clause("status", "eq", Quoted(p.status.value)))];
    }
    upTo := upTo + When(Filled(p.status), [Render(Clause("status", "eq", Quoted(p.status.GetOr(""))))]);
    assert filters == upTo;
    if Filled(p.orderNumber) {
      filters := filters + [Render(Clause("orderNumber", "eq", Quoted(p.orderNumber.value)))];
    }
    upTo := upTo + When(Filled(p.orderNumber), [Render(Clause("orderNumber", "eq", Quoted(p.orderNumber.GetOr(""))))]);
    assert filters == upTo;
    if Filled(p.startDate) {
      filters := filters + [Render(Clause("submittedDate", "ge", DateTime(p.startDate.value)))];
    }
    upTo := upTo + When(Filled(p.startDate), [Render(Clause("submittedDate", "ge", DateTime(p.startDate.GetOr(""))))]);
    assert filters == upTo;
    if Filled(p.endDate) {
      filters := filters + [Render(Clause("submittedDate", "le", DateTime(p.endDate.value)))];
    }
  }

  /** The query parameters, assembled the way the handler does. */
  method BuildSearchQuery(p: SearchParams) returns (q: map<string, Json>)
    ensures q == SearchQuery(p)
  {
    q := map["startIndex" := Num(p.startIndex), "pageSize" := Num(p.pageSize)];
    var filters := BuildSearchFilters(p);
    if |filters| > 0 {
      q := q["filter" := Str(Join(filters, " and "))];
    }
    if Filled(p.sortBy) {
      q := q["sortBy" := Str(p.sortBy.value)];
    }
    q := q["responseFields" := Str(SearchFields)];
  }

  /** The filter is sent exactly when some criterion is given. */
  lemma SearchFilterPresence(p: SearchParams)
    ensures "filter" in SearchQuery(p) <==>
              Filled(p.customerEmailAddress) || Filled(p.status) || Filled(p.orderNumber)
              || Filled(p.startDate) || Filled(p.endDate)
  {
    var fs := SearchFilters(p);
    assert |fs| == (if Filled(p.customerEmailAddress) then 1 else 0) + (if Filled(p.status) then 1 else 0)
                   + (if Filled(p.orderNumber) then 1 else 0) + (if Filled(p.startDate) then 1 else 0)
                   + (if Filled(p.endDate) then 1 else 0);
    var q := WithFilter(map["startIndex" := Num(p.startIndex), "pageSize" := Num(p.pageSize)], fs);
    assert "filter" in q <==> fs != [];
    assert "filter" in SearchQuery(p) <==> "filter" in q;
  }

  /** A date range becomes two clauses on the submission date, last in the
    * filter. */
  lemma SearchDateRange(p: SearchParams)
    requires Filled(p.startDate) && Filled(p.endDate)
    ensures var fs := SearchFilters(p);
            && |fs| >= 2
            && fs[|fs| - 2] == "submittedDate ge datetime'" + p.startDate.value + "'"
            && fs[|fs| - 1] == "submittedDate le datetime'" + p.endDate.value + "'"
  {
    var fs := SearchFilters(p);
    var ge := Render(Clause("submittedDate", "ge", DateTime(p.startDate.value)));
    var le := Render(Clause("submittedDate", "le", DateTime(p.endDate.value)));
    var front := fs[..|fs| - 2];
    assert fs == front + [ge] + [le];
    DateClauses(p.startDate.value, p.endDate.value);
  }

  lemma DateClauses(start: string, end: string)
    ensures Render(Clause("submittedDate", "ge", DateTime(start))) == "submittedDate ge datetime'" + start + "'"
    ensures Render(Clause("submittedDate", "le", DateTime(end))) == "submittedDate le datetime'" + end + "'"
  {
    RenderDate("submittedDate", "ge", start);
    RenderDate("submittedDate", "le", end);
    assert "submittedDate" + " " + "ge" + " datetime'" == "submittedDate ge datetime'";
    assert "submittedDate" + " " + "le" + " datetime'" == "submittedDate le datetime'";
  }

  /** `handleOrderSearch(args)`. */
  method HandleSearch(args: Option<Json>, answer: Result<Json, Thrown>) returns (call: Option<ApiRequest>, out: ToolOutcome)
    ensures ParseSearch(args).Err? ==> call.None? && out == Threw(ParseSearch(args).error)
    ensures ParseSearch(args).Ok? ==>
              && call == Some(Call("GET", "/api/commerce/orders", SearchQuery(ParseSearch(args).value), None))
              && out == Returned(Settle(AndThen(answer, "orders"), "Failed to search orders"))
  {
    var parsed := ParseSearch(args);
    if parsed.Err? {
      return None, Threw(parsed.error);
    }
    var q := BuildSearchQuery(parsed.value);
    call := Some(Call("GET", "/api/commerce/orders", q, None));
    out := Returned(Settle(AndThen(answer, "orders"), "Failed to search orders"));
  }

  // ---------------------------------------------------------------------
  // kibo_order_details

  const DetailBaseFields := ["orderNumber", "status", "submittedDate", "total", "subtotal", "taxTotal",
                             "shippingTotal", "discountTotal", "customerAccount", "billingInfo",
                             "fulfillmentInfo", "notes"]

  /** The response fields of a details request. */
  function DetailFields(p: DetailParams): seq<string>
  {
    DetailBaseFields + When(p.includeItems, ["items"]) + When(p.includePayments, ["payments"])
    + When(p.includeFulfillment, ["packages", "shipments"])
  }

  /** The response fields, pushed the way the handler does. */
  method BuildDetailFields(p: DetailParams) returns (fields: seq<string>)
    ensures fields == DetailFields(p)
  {
    fields := DetailBaseFields;
    if p.includeItems {
      fields := fields + ["items"];
    }
    if p.includePayments {
      fields := fields + ["payments"];
    }
    if p.includeFulfillment {
      fields := fields + ["packages", "shipments"];
    }
  }

  /** The 12 base fields always come first; each optional group is present
    * exactly when its flag is set, and fulfillment brings both packages and
    * shipments. */
  lemma DetailFieldsByFlag(p: DetailParams)
    ensures DetailFields(p)[..12] == DetailBaseFields
    ensures "items" in DetailFields(p) <==> p.includeItems
    ensures "payments" in DetailFields(p) <==> p.includePayments
    ensures "packages" in DetailFields(p) <==> p.includeFulfillment
    ensures "shipments" in DetailFields(p) <==> p.includeFulfillment
  {
    var f := DetailFields(p);
    var groups := When(p.includeItems, ["items"]) + When(p.includePayments, ["payments"])
                  + When(p.includeFulfillment, ["packages", "shipments"]);
    assert f == DetailBaseFields + groups;
    OutsideBase(groups, f);
    InGroups(p.includeItems, p.includePayments, p.includeFulfillment);
  }

  /** None of the optional names is a base field. */
  lemma OutsideBase(groups: seq<string>, f: seq<string>)
    requires f == DetailBaseFields + groups
    ensures forall x :: x in ["items", "payments", "packages", "shipments"] ==> (x in f <==> x in groups)
  {
    forall x | x in ["items", "payments", "packages", "shipments"]
      ensures x !in DetailBaseFields
    {
    }
  }

  /** Each optional name belongs to one group only. */
  lemma InGroups(items: bool, payments: bool, fulfillment: bool)
    ensures var g := When(items, ["items"]) + When(payments, ["payments"]) + When(fulfillment, ["packages", "shipments"]);
            && ("items" in g <==> items) && ("payments" in g <==> payments)
            && ("packages" in g <==> fulfillment) && ("shipments" in g <==> fulfillment)
  {
  }

  /** With no flags given, every group is requested. */
  lemma DetailDefaults(args: Option<Json>)
    requires ParseDetail(args).Ok?
    requires "includeItems" !in ArgsOf(args) && "includePayments" !in ArgsOf(args) && "includeFulfillment" !in ArgsOf(args)
    ensures DetailFields(ParseDetail(args).value) == DetailBaseFields + ["items", "payments", "packages", "shipments"]
  {
  }

  /** `handleOrderDetails(args)`. */
  method HandleDetails(args: Option<Json>, answer: Result<Json, Thrown>) returns (call: Option<ApiRequest>, out: ToolOutcome)
    ensures ParseDetail(args).Err? ==> call.None? && out == Threw(ParseDetail(args).error)
    ensures ParseDetail(args).Ok? ==> var p := ParseDetail(args).value;
              && call == Some(Call("GET", OrderUrl(p.orderNumber),
                                   map["responseFields" := Str(Join(DetailFields(p), ","))], None))
              && out == Returned(Settle(answer, "Failed to retrieve order details for: " + p.orderNumber))
  {
    var parsed := ParseDetail(args);
    if parsed.Err? {
      return None, Threw(parsed.error);
    }
    var p := parsed.value;
    var fields := BuildDetailFields(p);
    call := Some(Call("GET", OrderUrl(p.orderNumber), map["responseFields" := Str(Join(fields, ","))], None));
    out := Returned(Settle(answer, "Failed to retrieve order details for: " + p.orderNumber));
  }

  // ---------------------------------------------------------------------
  // kibo_order_status_update

  /** Who the server records as the author of its changes. */
  const Updater := "mcp-server"

  /** The note a status change appends. */
  function NewNote(text: string, noteDate: string): Json
  {
    Obj(map["text" := Str(text), "noteDate" := Str(noteDate), "noteBy" := Str(Updater)])
  }

  /** The current order with the new status and a stamped audit record: every
    * other property of the order is copied, and every other property of its
    * audit record too. Reading the audit record of a null order throws. */
  function Merged(current: Json, status: string, updateDate: string): (r: Result<map<string, Json>, Thrown>)
    ensures r.Err? <==> current.Null?
    ensures r.Ok? ==> r.value.Keys == Spread(Some(current)).Keys + {"status", "auditInfo"}
    ensures r.Ok? ==> forall k :: k in Spread(Some(current)) && k != "status" && k != "auditInfo" ==> r.value[k] == current.fields[k]
    ensures r.Ok? ==> r.value["status"] == Str(status)
  {
    var audit :- Get(current, "auditInfo");
    Ok(Spread(Some(current))["status" := Str(status)]
         ["auditInfo" := Obj(Spread(audit)["updateDate" := Str(updateDate)]["updateBy" := Str(Updater)])])
  }

  /** The notes after a note is added: the current notes, spread, followed
    * by the new one; just the new one when there are none. */
  function NotesAfter(current: Json, note: Json): (r: Result<Json, Thrown>)
    ensures !Truthy(GetOpt(Some(current), "notes")) ==> r == Ok(Arr([note]))
    ensures var notes := GetOpt(Some(current), "notes");
            notes.Some? && notes.value.Arr? ==> r == Ok(Arr(notes.value.items + [note]))
    ensures r.Ok? ==> r.value.Arr? && |r.value.items| >= 1 && r.value.items[|r.value.items| - 1] == note
  {
    var notes := GetOpt(Some(current), "notes");
    if Truthy(notes) then
      var items :- SpreadItems(notes.value, "currentOrder.notes");
      Ok(Arr(items + [note]))
    else Ok(Arr([note]))
  }

  /** The order written back by a status update. */
  function UpdatePayload(current: Json, p: StatusParams, updateDate: string, noteDate: string): Result<Json, Thrown>
  {
    var data :- Merged(current, p.status, updateDate);
    if Filled(p.note) then
      var notes :- NotesAfter(current, NewNote(p.note.value, noteDate));
      Ok(Obj(data["notes" := notes]))
    else Ok(Obj(data))
  }

  /** The result data and message of a successful update. Reading from a
    * null reply to the write throws. */
  function Confirmation(p: StatusParams, current: Json, response: Json): (r: Result<Json, Thrown>)
    ensures r.Err? <==> response.Null?
  {
    var orderNumber :- Get(response, "orderNumber");
    var audit := GetOpt(Some(response), "auditInfo");
    var data := Defined(map["orderNumber" := orderNumber,
                            "oldStatus" := GetOpt(Some(current), "status"),
                            "newStatus" := GetOpt(Some(response), "status"),
                            "note" := (if p.note.Some? then Some(Str(p.note.value)) else None),
                            "updatedDate" := And(audit, GetOpt(audit, "updateDate"))]);
    Ok(Obj(map["success" := Bool(true), "data" := Obj(data),
               "message" := Str("Order " + p.orderNumber + " status updated from "
                                + OptionalText(GetOpt(Some(current), "status")) + " to " + p.status)]))
  }

  function StatusDetails(p: StatusParams): string
  {
    "Failed to update status for order: " + p.orderNumber
  }

  /** What the tool returns, given what the read and the write settle with. */
  function StatusResult(p: StatusParams, fetched: Result<Json, Thrown>, stored: Result<Json, Thrown>,
                        updateDate: string, noteDate: string): Json
  {
    var r: Result<Json, Thrown> :=
      var current :- fetched;
      var _ :- UpdatePayload(current, p, updateDate, noteDate);
      var response :- stored;
      Confirmation(p, current, response);
    if r.Ok? then r.value else Failure(r.error, StatusDetails(p))
  }

  /** The requests a status update sends: the read, then the write of the
    * merged order exactly when the read and the merge succeed. */
  function StatusCalls(p: StatusParams, fetched: Result<Json, Thrown>, updateDate: string, noteDate: string): seq<ApiRequest>
  {
    [Call("GET", OrderUrl(p.orderNumber), map[], None)]
    + if fetched.Ok? && UpdatePayload(fetched.value, p, updateDate, noteDate).Ok?
      then [Call("PUT", OrderUrl(p.orderNumber), map[], Some(UpdatePayload(fetched.value, p, updateDate, noteDate).value))]
      else []
  }

  /** A status update reads the order, and writes the merged order back to
    * the same URL exactly when the read and the merge succeed. */
  lemma StatusCallsShape(p: StatusParams, fetched: Result<Json, Thrown>, updateDate: string, noteDate: string)
    ensures var calls := StatusCalls(p, fetched, updateDate, noteDate);
            && 1 <= |calls| <= 2
            && calls[0] == Call("GET", OrderUrl(p.orderNumber), map[], None)
            && (|calls| == 2 <==> fetched.Ok? && UpdatePayload(fetched.value, p, updateDate, noteDate).Ok?)
            && (|calls| == 2 ==> calls[1] == Call("PUT", OrderUrl(p.orderNumber), map[],
                                                 Some(UpdatePayload(fetched.value, p, updateDate, noteDate).value)))
  {
  }

  /** `handleOrderStatusUpdate(args)`. `fetched` and `stored` are what the
    * read and the write settle with; `updateDate` and `noteDate` are the two
    * clock readings the handler takes. The write is issued only when the read
    * succeeded and the order could be merged, and it goes to the address
    * that was read. */
  method HandleStatusUpdate(args: Option<Json>, fetched: Result<Json, Thrown>, stored: Result<Json, Thrown>,
                            updateDate: string, noteDate: string)
    returns (calls: seq<ApiRequest>, out: ToolOutcome)
    ensures ParseStatus(args).Err? ==> calls == [] && out == Threw(ParseStatus(args).error)
    ensures ParseStatus(args).Ok? ==> var p := ParseStatus(args).value;
              && calls == StatusCalls(p, fetched, updateDate, noteDate)
              && out == Returned(StatusResult(p, fetched, stored, updateDate, noteDate))
  {
    var parsed := ParseStatus(args);
    if parsed.Err? {
      return [], Threw(parsed.error);
    }
    var p := parsed.value;
    var url := OrderUrl(p.orderNumber);
    calls := [Call("GET", url, map[], None)];
    if fetched.Err? {
      return calls, Returned(Failure(fetched.error, StatusDetails(p)));
    }
    var current := fetched.value;
    var merged := Merged(current, p.status, updateDate);
    if merged.Err? {
      return calls, Returned(Failure(merged.error, StatusDetails(p)));
    }
    var updateData := merged.value;
    if Filled(p.note) {
      var notes := NotesAfter(current, NewNote(p.note.value, noteDate));
      if notes.Err? {
        return calls, Returned(Failure(notes.error, StatusDetails(p)));
      }
      updateData := updateData["notes" := notes.value];
    }
    calls := calls + [Call("PUT", url, map[], Some(Obj(updateData)))];
    if stored.Err? {
      return calls, Returned(Failure(stored.error, StatusDetails(p)));
    }
    var confirmed := Confirmation(p, current, stored.value);
    if confirmed.Err? {
      return calls, Returned(Failure(confirmed.error, StatusDetails(p)));
    }
    out := Returned(confirmed.value);
  }

  /** The written order keeps every property of the current one except the
    * status, the audit record and, when a note is added, the notes; it
    * carries the requested status, and its audit record keeps its other
    * properties and is stamped with the update time and the server as
    * author. */
  lemma UpdateKeepsOrder(current: map<string, Json>, p: StatusParams, updateDate: string, noteDate: string)
    ensures UpdatePayload(Obj(current), p, updateDate, noteDate).Ok? ==>
              var w := UpdatePayload(Obj(current), p, updateDate, noteDate).value;
              && w.Obj?
              && (forall k :: k in current && k != "status" && k != "auditInfo" && (k != "notes" || !Filled(p.note))
                    ==> k in w.fields && w.fields[k] == current[k])
              && w.fields["status"] == Str(p.status)
              && w.fields["auditInfo"].Obj?
              && var audit := w.fields["auditInfo"].fields;
                 && audit["updateDate"] == Str(updateDate) && audit["updateBy"] == Str(Updater)
                 && (forall k :: k in Spread(Lookup(current, "auditInfo")) && k != "updateDate" && k != "updateBy"
                       ==> k in audit && audit[k] == current["auditInfo"].fields[k])
  {
  }

  /** An update always succeeds in merging an order object whose notes are
    * absent or an array, and a note is appended after the existing ones. */
  lemma NoteAppended(current: map<string, Json>, items: seq<Json>, p: StatusParams, updateDate: string, noteDate: string)
    requires "notes" in current ==> current["notes"] == Arr(items)
    requires "notes" !in current ==> items == []
    requires Filled(p.note)
    ensures UpdatePayload(Obj(current), p, updateDate, noteDate).Ok?
    ensures UpdatePayload(Obj(current), p, updateDate, noteDate).value.fields["notes"]
            == Arr(items + [NewNote(p.note.value, noteDate)])
  {
    var note := NewNote(p.note.value, noteDate);
    if "notes" !in current {
      assert items + [note] == [note];
    }
  }

  /** Without a note, the notes are never touched, and an order of any shape
    * other than null can be merged. */
  lemma NoNoteNoNotes(current: Json, p: StatusParams, updateDate: string, noteDate: string)
    requires !Filled(p.note)
    ensures UpdatePayload(current, p, updateDate, noteDate).Ok? <==> !current.Null?
    ensures UpdatePayload(current, p, updateDate, noteDate).Ok? ==>
              ("notes" in UpdatePayload(current, p, updateDate, noteDate).value.fields <==> "notes" in Spread(Some(current)))
  {
  }

  /** A note on an order whose notes are an object, a number or `true`
    * fails the update before anything is written. */
  lemma NotesNotIterable(current: map<string, Json>, p: StatusParams, updateDate: string, noteDate: string)
    requires "notes" in current && Truthy(Some(current["notes"]))
    requires !current["notes"].Arr? && !current["notes"].Str?
    requires Filled(p.note)
    ensures UpdatePayload(Obj(current), p, updateDate, noteDate) == Err(Error("currentOrder.notes is not iterable"))
  {
    assert GetOpt(Some(Obj(current)), "notes") == Some(current["notes"]);
    assert "currentOrder.notes" + " is not iterable" == "currentOrder.notes is not iterable";
    assert SpreadItems(current["notes"], "currentOrder.notes") == Err(Error("currentOrder.notes is not iterable"));
    assert NotesAfter(Obj(current), NewNote(p.note.value, noteDate)) == Err(Error("currentOrder.notes is not iterable"));
  }

  /** On success the message reports the status read before the update and
    * the requested one, and the data reports the status the write returned. */
  lemma ConfirmationReports(p: StatusParams, current: map<string, Json>, response: map<string, Json>, before: string)
    requires "status" in current && current["status"] == Str(before)
    ensures var r := Confirmation(p, Obj(current), Obj(response));
            && r.Ok? && r.value.fields["success"] == Bool(true)
            && r.value.fields["message"] == Str("Order " + p.orderNumber + " status updated from " + before + " to " + p.status)
            && r.value.fields["data"].fields["oldStatus"] == Str(before)
            && ("newStatus" in r.value.fields["data"].fields <==> "status" in response)
            && ("note" in r.value.fields["data"].fields <==> p.note.Some?)
  {
  }

  // ---------------------------------------------------------------------
  // handleOrderTools

  /** What `handleOrderTools(name, args)` sends and settles with, tool by
    * tool: `fetched` is what the read settles with, `stored` the write. */
  function Handled(name: string, args: Option<Json>, fetched: Result<Json, Thrown>, stored: Result<Json, Thrown>,
                   updateDate: string, noteDate: string): Handling
  {
    match Dispatch(name)
    case Err(e) => Handling([], Threw(e))
    case Ok(Search) =>
      (match ParseSearch(args)
       case Err(e) => Handling([], Threw(e))
       case Ok(p) =>
         Handling([Call("GET", "/api/commerce/orders", SearchQuery(p), None)],
                  Returned(Settle(AndThen(fetched, "orders"), "Failed to search orders"))))
    case Ok(Details) =>
      (match ParseDetail(args)
       case Err(e) => Handling([], Threw(e))
       case Ok(p) =>
         Handling([Call("GET", OrderUrl(p.orderNumber), map["responseFields" := Str(Join(DetailFields(p), ","))], None)],
                  Returned(Settle(fetched, "Failed to retrieve order details for: " + p.orderNumber))))
    case Ok(StatusUpdate) =>
      (match ParseStatus(args)
       case Err(e) => Handling([], Threw(e))
       case Ok(p) =>
         Handling(StatusCalls(p, fetched, updateDate, noteDate),
                  Returned(StatusResult(p, fetched, stored, updateDate, noteDate))))
  }

  /** Search and details issue at most one read; a status update reads
    * the order and may then write it back to the same URL. */
  lemma HandledRequests(name: string, args: Option<Json>, fetched: Result<Json, Thrown>, stored: Result<Json, Thrown>,
                        updateDate: string, noteDate: string)
    ensures var calls := Handled(name, args, fetched, stored, updateDate, noteDate).calls;
            && (Dispatch(name) == Ok(Search) ==> |calls| <= 1 && forall c :: c in calls ==> c.url == "/api/commerce/orders")
            && (Dispatch(name) != Ok(StatusUpdate) ==> |calls| <= 1 && forall c :: c in calls ==> c.verb == "GET")
            && |calls| <= 2
            && (|calls| == 2 ==> calls[0].verb == "GET" && calls[1].verb == "PUT" && calls[0].url == calls[1].url)
  {
    match Dispatch(name)
    case Err(_) =>
    case Ok(Search) =>
    case Ok(Details) =>
    case Ok(StatusUpdate) =>
      if ParseStatus(args).Ok? {
        StatusCallsShape(ParseStatus(args).value, fetched, updateDate, noteDate);
      }
  }

  /** `handleOrderTools(name, args)`: an unknown name throws before any
    * request; the status update answers with the write's reply only after
    * reading the order; the switch passes on its handler's requests and
    * outcome. */
  method HandleOrderTools(name: string, args: Option<Json>, fetched: Result<Json, Thrown>, stored: Result<Json, Thrown>,
                          updateDate: string, noteDate: string)
    returns (calls: seq<ApiRequest>, out: ToolOutcome)
    ensures Handling(calls, out) == Handled(name, args, fetched, stored, updateDate, noteDate)
    ensures Dispatch(name).Err? ==> calls == [] && out == Threw(Error("Unknown order tool: " + name))
  {
    var handler := Dispatch(name);
    if handler.Err? {
      return [], Threw(handler.error);
    }
    var call: Option<ApiRequest>;
    match handler.value {
      case Search =>
        call, out := HandleSearch(args, fetched);
        calls := if call.Some? then [call.value] else [];
      case Details =>
        call, out := HandleDetails(args, fetched);
        calls := if call.Some? then [call.value] else [];
      case StatusUpdate =>
        calls, out := HandleStatusUpdate(args, fetched, stored, updateDate, noteDate);
    }
  }
}
