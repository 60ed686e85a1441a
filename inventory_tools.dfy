/** The inventory tools: search, product inventory details and the stock
  * availability check.
  *
  * The availability check issues one request per product code; its handler
  * takes what each of them settles with, in order. */
module InventoryTools {
  import opened Js
  import opened BaseService
  import opened ToolSupport
  import opened Auth

  // ---------------------------------------------------------------------
  // Schemas

  const SearchSchema: seq<FieldSchema> := [
    FieldSchema("productCode", StringKind, Optional, None, None),
    FieldSchema("locationCode", StringKind, Optional, None, None),
    FieldSchema("includeReserved", BooleanKind, Defaulted(Bool(true)), None, None),
    FieldSchema("includeAllocated", BooleanKind, Defaulted(Bool(true)), None, None),
    FieldSchema("startIndex", NumberKind, Defaulted(Num(0)), Some(0), None),
    FieldSchema("pageSize", NumberKind, Defaulted(Num(50)), Some(1), Some(200))]

  const DetailSchema: seq<FieldSchema> := [
    FieldSchema("productCode", StringKind, Required, None, None),
    FieldSchema("locationCode", StringKind, Optional, None, None),
    FieldSchema("includeHistory", BooleanKind, Defaulted(Bool(false)), None, None)]

  const StockSchema: seq<FieldSchema> := [
    FieldSchema("productCodes", StringListKind, Required, None, None),
    FieldSchema("locationCode", StringKind, Optional, None, None),
    FieldSchema("quantity", NumberKind, Defaulted(Num(1)), Some(1), None)]

  datatype SearchParams = SearchParams(
    productCode: Option<string>, locationCode: Option<string>, includeReserved: bool, includeAllocated: bool,
    startIndex: int, pageSize: int)

  datatype DetailParams = DetailParams(productCode: string, locationCode: Option<string>, includeHistory: bool)

  datatype StockParams = StockParams(productCodes: seq<string>, locationCode: Option<string>, quantity: int)

  /** `InventorySearchSchema.parse(args)`. */
  function ParseSearch(args: Option<Json>): (r: Result<SearchParams, Thrown>)
    ensures r.Ok? ==> 0 <= r.value.startIndex && 1 <= r.value.pageSize <= 200
    ensures r.Ok? && "startIndex" !in ArgsOf(args) ==> r.value.startIndex == 0
    ensures r.Ok? && "pageSize" !in ArgsOf(args) ==> r.value.pageSize == 50
    ensures r.Ok? && "includeReserved" !in ArgsOf(args) ==> r.value.includeReserved
    ensures r.Ok? && "includeAllocated" !in ArgsOf(args) ==> r.value.includeAllocated
  {
    var m :- Parse(SearchSchema, args);
    ParsedBool(SearchSchema, args, 2);
    ParsedBool(SearchSchema, args, 3);
    ParsedNumber(SearchSchema, args, 4);
    ParsedNumber(SearchSchema, args, 5);
    Ok(SearchParams(StringAt(m, "productCode"), StringAt(m, "locationCode"), BoolAt(m, "includeReserved"),
                    BoolAt(m, "includeAllocated"), NumberAt(m, "startIndex"), NumberAt(m, "pageSize")))
  }

  /** `InventoryDetailSchema.parse(args)`. */
  function ParseDetail(args: Option<Json>): (r: Result<DetailParams, Thrown>)
    ensures r.Ok? ==> "productCode" in ArgsOf(args) && ArgsOf(args)["productCode"] == Str(r.value.productCode)
    ensures r.Ok? && "includeHistory" !in ArgsOf(args) ==> !r.value.includeHistory
  {
    var m :- Parse(DetailSchema, args);
    ParsedString(DetailSchema, args, 0);
    ParsedBool(DetailSchema, args, 2);
    Ok(DetailParams(StringAt(m, "productCode").GetOr(""), StringAt(m, "locationCode"), BoolAt(m, "includeHistory")))
  }

  /** `StockAvailabilitySchema.parse(args)`. */
  function ParseStock(args: Option<Json>): (r: Result<StockParams, Thrown>)
    ensures r.Ok? ==> "productCodes" in ArgsOf(args) && ArgsOf(args)["productCodes"].Arr?
    ensures r.Ok? ==> var given := ArgsOf(args)["productCodes"].items;
              |r.value.productCodes| == |given|
              && forall j :: 0 <= j < |given| ==> given[j] == Str(r.value.productCodes[j])
    ensures r.Ok? ==> 1 <= r.value.quantity
    ensures r.Ok? && "quantity" !in ArgsOf(args) ==> r.value.quantity == 1
  {
    var m :- Parse(StockSchema, args);
    ParsedStrings(StockSchema, args, 0);
    ParsedNumber(StockSchema, args, 2);
    Ok(StockParams(StringsAt(m, "productCodes"), StringAt(m, "locationCode"), NumberAt(m, "quantity")))
  }

  // ---------------------------------------------------------------------
  // Catalog and dispatch

  const Catalog: seq<Tool> := [
    Tool("kibo_inventory_search",
         "Search inventory levels across products and locations with filtering options",
         [Property("productCode", "string", None, None, None),
          Property("locationCode", "string", None, None, None),
          Property("includeReserved", "boolean", None, None, Some(Bool(true))),
          Property("includeAllocated", "boolean", None, None, Some(Bool(true))),
          Property("startIndex", "number", Some(0), None, Some(Num(0))),
          Property("pageSize", "number", Some(1), Some(200), Some(Num(50)))],
         []),
    Tool("kibo_inventory_details",
         "Get detailed inventory information for a specific product across all or specific locations",
         [Property("productCode", "string", None, None, None),
          Property("locationCode", "string", None, None, None),
          Property("includeHistory", "boolean", None, None, Some(Bool(false)))],
         ["productCode"]),
    Tool("kibo_stock_availability",
         "Check stock availability for multiple products at a specific location",
         [Property("productCodes", "array", None, None, None),
          Property("locationCode", "string", None, None, None),
          Property("quantity", "number", Some(1), None, Some(Num(1)))],
         ["productCodes"])]

  /** Each advertised input schema matches the one its handler enforces. */
  lemma SearchCatalogEntry()
    ensures Describes(Catalog[0], SearchSchema)
  {
    SearchProperties();
    assert Catalog[0].required == RequiredNames(SearchSchema);
  }

  lemma SearchProperties()
    ensures |Catalog[0].properties| == |SearchSchema|
    ensures forall i :: 0 <= i < |SearchSchema| ==> Catalog[0].properties[i] == Advertised(SearchSchema[i])
  {
  }

  lemma DetailCatalogEntry()
    ensures Describes(Catalog[1], DetailSchema)
  {
  }

  lemma StockCatalogEntry()
    ensures Describes(Catalog[2], StockSchema)
  {
  }

  datatype Handler = Search | Details | StockAvailability {
    /** The position of the handler's tool in the catalog. */
    function Index(): nat { match this case Search => 0 case Details => 1 case StockAvailability => 2 }
  }

  /** The advertised tool names, in catalog order. */
  const ToolNames := ["kibo_inventory_search", "kibo_inventory_details", "kibo_stock_availability"]

  lemma CatalogNames()
    ensures Names(Catalog) == ToolNames
  {
  }

  /** `handleInventoryTools`' switch. */
  function Dispatch(name: string): (r: Result<Handler, Thrown>)
    ensures r.Ok? <==> name in ToolNames
    ensures r.Ok? ==> ToolNames[r.value.Index()] == name
    ensures r.Err? ==> r.error == Error("Unknown inventory tool: " + name)
  {
    if name == "kibo_inventory_search" then Ok(Search)
    else if name == "kibo_inventory_details" then Ok(Details)
    else if name == "kibo_stock_availability" then Ok(StockAvailability)
    else Err(Error("Unknown inventory tool: " + name))
  }

  // ---------------------------------------------------------------------
  // kibo_inventory_search

  function SearchFilters(p: SearchParams): seq<string>
  {
    When(Filled(p.productCode), [Render(Clause("productCode", "eq", Quoted(p.productCode.GetOr(""))))])
    + When(Filled(p.locationCode), [Render(Clause("locationCode", "eq", Quoted(p.locationCode.GetOr(""))))])
  }

  const SearchBaseFields := ["productCode", "locationCode", "stockOnHand", "available", "allocated", "pending"]

  /** The item fields of a search; `allocated` is listed a second time when
    * allocated quantities are asked for. */
  function SearchFields(p: SearchParams): seq<string>
  {
    SearchBaseFields + When(p.includeReserved, ["reserved"]) + When(p.includeAllocated, ["allocated"])
  }

  function SearchResponseFields(p: SearchParams): string
  {
    "items(" + Join(SearchFields(p), ",") + "),totalCount,pageCount,pageSize,startIndex"
  }

  function SearchQuery(p: SearchParams): map<string, Json>
  {
    WithFilter(map["startIndex" := Num(p.startIndex), "pageSize" := Num(p.pageSize)], SearchFilters(p))
      ["responseFields" := Str(SearchResponseFields(p))]
  }

  /** The query parameters, assembled the way the handler does. */
  method BuildSearchQuery(p: SearchParams) returns (q: map<string, Json>)
    ensures q == SearchQuery(p)
  {
    q := map["startIndex" := Num(p.startIndex), "pageSize" := Num(p.pageSize)];
    var filters := [];
    if Filled(p.productCode) {
      filters := filters + [Render(Clause("productCode", "eq", Quoted(p.productCode.value)))];
    }
    if Filled(p.locationCode) {
      filters := filters + [Render(Clause("locationCode", "eq", Quoted(p.locationCode.value)))];
    }
    assert filters == SearchFilters(p);
    ghost var base := q;
    if |filters| > 0 {
      q := q["filter" := Str(Join(filters, " and "))];
    }
    assert q == WithFilter(base, SearchFilters(p));
    var fields := SearchBaseFields;
    if p.includeReserved {
      fields := fields + ["reserved"];
    }
    if p.includeAllocated {
      fields := fields + ["allocated"];
    }
    assert fields == SearchFields(p);
    q := q["responseFields" := Str("items(" + Join(fields, ",") + "),totalCount,pageCount,pageSize,startIndex")];
  }

  /** The filter names the product before the location, and is sent only
    * when one of them is given. */
  lemma SearchFilterShape(p: SearchParams)
    ensures "filter" in SearchQuery(p) <==> Filled(p.productCode) || Filled(p.locationCode)
    ensures Filled(p.productCode) && Filled(p.locationCode) ==>
              SearchQuery(p)["filter"] == Str("productCode eq '" + p.productCode.value + "' and locationCode eq '"
                                              + p.locationCode.value + "'")
  {
    if Filled(p.productCode) && Filled(p.locationCode) {
      var v, l := p.productCode.value, p.locationCode.value;
      var a := Render(Clause("productCode", "eq", Quoted(v)));
      var b := Render(Clause("locationCode", "eq", Quoted(l)));
      assert SearchFilters(p) == [a, b];
      RenderQuoted("productCode", v);
      RenderQuoted("locationCode", l);
      assert Join([a, b], " and ") == a + " and " + b;
      BothClauses(v, l);
    }
  }

  lemma BothClauses(v: string, l: string)
    ensures "productCode" + " eq '" + v + "'" + " and " + ("locationCode" + " eq '" + l + "'")
         == "productCode eq '" + v + "' and locationCode eq '" + l + "'"
  {
    var x, y := "productCode" + " eq '", "'" + " and " + ("locationCode" + " eq '");
    assert x == "productCode eq '";
    assert y == "' and locationCode eq '";
    assert x + v + "'" + " and " + ("locationCode" + " eq '" + l + "'") == x + v + y + l + "'";
  }

  /** The item list is the six base fields, then `reserved`, then a repeated
    * `allocated`, each by its flag. */
  lemma SearchFieldsByFlag(p: SearchParams)
    ensures SearchFields(p)[..6] == SearchBaseFields
    ensures |SearchFields(p)| == 6 + (if p.includeReserved then 1 else 0) + (if p.includeAllocated then 1 else 0)
    ensures "reserved" in SearchFields(p) <==> p.includeReserved
    ensures p.includeAllocated ==> SearchFields(p)[|SearchFields(p)| - 1] == "allocated" == SearchFields(p)[4]
  {
    var f := SearchFields(p);
    assert f == SearchBaseFields + (When(p.includeReserved, ["reserved"]) + When(p.includeAllocated, ["allocated"]));
  }

  /** `handleInventorySearch(args)`. */
  method HandleSearch(args: Option<Json>, answer: Result<Json, Thrown>) returns (call: Option<ApiRequest>, out: ToolOutcome)
    ensures ParseSearch(args).Err? ==> call.None? && out == Threw(ParseSearch(args).error)
    ensures ParseSearch(args).Ok? ==>
              && call == Some(Call("GET", "/api/commerce/inventory", SearchQuery(ParseSearch(args).value), None))
              && out == Returned(Settle(AndThen(answer, "inventory"), "Failed to search inventory"))
  {
    var parsed := ParseSearch(args);
    if parsed.Err? {
      return None, Threw(parsed.error);
    }
    var q := BuildSearchQuery(parsed.value);
    call := Some(Call("GET", "/api/commerce/inventory", q, None));
    out := Returned(Settle(AndThen(answer, "inventory"), "Failed to search inventory"));
  }

  // ---------------------------------------------------------------------
  // kibo_inventory_details

  /** The address of a product's inventory, narrowed to one location when
    * a location is given. */
  function DetailUrl(p: DetailParams): string
  {
    "/api/commerce/inventory/" + EncodeURIComponent(p.productCode)
    + (if Filled(p.locationCode) then "/" + EncodeURIComponent(p.locationCode.value) else "")
  }

  /** The path segments of the details address: the product and the location
    * stay one segment each, whatever Unicode scalar values they hold. */
  lemma DetailUrlSegments(p: DetailParams)
    ensures Split(DetailUrl(p), '/') == ["", "api", "commerce", "inventory", EncodeURIComponent(p.productCode)]
                                       + When(Filled(p.locationCode), [EncodeURIComponent(p.locationCode.GetOr(""))])
  {
    var code := EncodeURIComponent(p.productCode);
    var loc := EncodeURIComponent(p.locationCode.GetOr(""));
    var parts := ["", "api", "commerce", "inventory", code] + When(Filled(p.locationCode), [loc]);
    DetailUrlJoin(p);
    NoSlash(p.productCode);
    NoSlash(p.locationCode.GetOr(""));
    assert forall i :: 0 <= i < |parts| ==> '/' !in parts[i];
    SplitJoin(parts, '/');
  }

  /** The details address joins its segments with slashes. */
  lemma DetailUrlJoin(p: DetailParams)
    ensures Join(["", "api", "commerce", "inventory", EncodeURIComponent(p.productCode)]
                 + When(Filled(p.locationCode), [EncodeURIComponent(p.locationCode.GetOr(""))]), "/") == DetailUrl(p)
  {
    var code := EncodeURIComponent(p.productCode);
    var base := ["", "api", "commerce", "inventory", code];
    BaseJoin(code);
    if Filled(p.locationCode) {
      var loc := EncodeURIComponent(p.locationCode.value);
      JoinSnoc(base, loc, "/");
      assert DetailUrl(p) == "/api/commerce/inventory/" + code + ("/" + loc);
    } else {
      assert base + [] == base;
      assert DetailUrl(p) == "/api/commerce/inventory/" + code + "";
    }
  }

  lemma BaseJoin(code: string)
    ensures Join(["", "api", "commerce", "inventory", code], "/") == "/api/commerce/inventory/" + code
  {
    var base := ["", "api", "commerce", "inventory"];
    assert base + [code] == ["", "api", "commerce", "inventory", code];
    JoinSnoc(base, code, "/");
    BasePrefix();
  }

  lemma BasePrefix()
    ensures Join(["", "api", "commerce", "inventory"], "/") + "/" == "/api/commerce/inventory/"
  {
    var l1 := ["inventory"];
    var l2 := ["commerce"] + l1;
    var l3 := ["api"] + l2;
    var l4 := [""] + l3;
    assert l4 == ["", "api", "commerce", "inventory"];
    assert l2[1..] == l1 && l3[1..] == l2 && l4[1..] == l3;
    assert Join(l1, "/") == "inventory";
    assert Join(l2, "/") == "commerce" + "/" + Join(l1, "/");
    assert Join(l3, "/") == "api" + "/" + Join(l2, "/");
    assert Join(l4, "/") == "" + "/" + Join(l3, "/");
    BaseLiteral();
  }

  lemma BaseLiteral()
    ensures "" + "/" + ("api" + "/" + ("commerce" + "/" + "inventory")) + "/" == "/api/commerce/inventory/"
  {
  }

  /** An encoded component holds no slash. */
  lemma NoSlash(s: string)
    ensures '/' !in EncodeURIComponent(s)
  {
    EncodedIsUrlSafe(s);
  }

  /** The address, extended the way the handler does. */
  method BuildDetailUrl(p: DetailParams) returns (url: string)
    ensures url == DetailUrl(p)
  {
    url := "/api/commerce/inventory/" + EncodeURIComponent(p.productCode);
    if Filled(p.locationCode) {
      url := url + "/" + EncodeURIComponent(p.locationCode.value);
    }
  }

  const DetailBaseFields := ["productCode", "locationCode", "stockOnHand", "available", "allocated", "pending",
                             "reserved", "lastUpdated"]

  function DetailFields(p: DetailParams): seq<string>
  {
    DetailBaseFields + When(p.includeHistory, ["transactions"])
  }

  /** Transactions are requested exactly when history is, after the eight
    * base fields. */
  lemma DetailFieldsByFlag(p: DetailParams)
    ensures DetailFields(p)[..8] == DetailBaseFields
    ensures "transactions" in DetailFields(p) <==> p.includeHistory
  {
  }

  /** `handleInventoryDetails(args)`. */
  method HandleDetails(args: Option<Json>, answer: Result<Json, Thrown>) returns (call: Option<ApiRequest>, out: ToolOutcome)
    ensures ParseDetail(args).Err? ==> call.None? && out == Threw(ParseDetail(args).error)
    ensures ParseDetail(args).Ok? ==> var p := ParseDetail(args).value;
              && call == Some(Call("GET", DetailUrl(p), map["responseFields" := Str(Join(DetailFields(p), ","))], None))
              && out == Returned(Settle(answer, "Failed to retrieve inventory details for product: " + p.productCode))
  {
    var parsed := ParseDetail(args);
    if parsed.Err? {
      return None, Threw(parsed.error);
    }
    var p := parsed.value;
    var url := BuildDetailUrl(p);
    var fields := DetailBaseFields;
    if p.includeHistory {
      fields := fields + ["transactions"];
    }
    assert fields == DetailFields(p);
    call := Some(Call("GET", url, map["responseFields" := Str(Join(fields, ","))], None));
    out := Returned(Settle(answer, "Failed to retrieve inventory details for product: " + p.productCode));
  }

  // ---------------------------------------------------------------------
  // kibo_stock_availability

  /** The location a result reports: the given one, or `'default'`. */
  function LocationLabel(location: Option<string>): string
  {
    if Filled(location) then location.value else "default"
  }

  function StockUrl(code: string): string
  {
    "/api/commerce/catalog/storefront/products/" + EncodeURIComponent(code) + "/inventoryinfo"
  }

  /** The availability lookup for one product. */
  function StockCall(p: StockParams, code: string): ApiRequest
  {
    Call("GET", StockUrl(code), WithText(map["quantity" := Num(p.quantity)], "locationCode", p.locationCode), None)
  }

  /** `stock >= quantity` for a stock level as the reply holds it: a missing
    * level compares as NaN, null as 0 and a boolean as 0 or 1. */
  predicate AtLeast(stock: Option<Json>, quantity: int)
  {
    match stock
    case None => false
    case Some(Null) => 0 >= quantity
    case Some(Bool(b)) => (if b then 1 else 0) >= quantity
    case Some(Num(n)) => n >= quantity
    case Some(_) => false
  }

  /** The entry of a product whose lookup threw. */
  function Unchecked(p: StockParams, code: string, error: Thrown): Json
  {
    Obj(map["productCode" := Str(code), "isAvailable" := Bool(false), "error" := Str(error.MessageOr("Unknown error")),
            "requestedQuantity" := Num(p.quantity), "locationCode" := Str(LocationLabel(p.locationCode))])
  }

  /** The entry for one product, given what its lookup settled with. */
  function Availability(p: StockParams, code: string, reply: Result<Json, Thrown>): Json
  {
    match reply
    case Err(e) => Unchecked(p, code, e)
    case Ok(response) =>
      match Get(response, "onlineStockAvailable")
      case Err(e) => Unchecked(p, code, e)
      case Ok(stock) =>
        Obj(map["productCode" := Str(code), "isAvailable" := Bool(AtLeast(stock, p.quantity)),
                "stockOnHand" := Or(stock, Num(0)), "requestedQuantity" := Num(p.quantity),
                "locationCode" := Str(LocationLabel(p.locationCode))])
  }

  /** A product is available exactly when its lookup answered with a stock
    * level of at least the requested quantity; a lookup that failed, or whose
    * reply could not be read, yields an unavailable entry carrying the error
    * instead of a stock level. Every entry names its product, the requested
    * quantity and the location. */
  lemma AvailabilityReports(p: StockParams, code: string, reply: Result<Json, Thrown>)
    ensures var r := Availability(p, code, reply);
            && r.Obj? && r.fields.Keys >= {"productCode", "isAvailable", "requestedQuantity", "locationCode"}
            && r.fields["productCode"] == Str(code)
            && r.fields["requestedQuantity"] == Num(p.quantity)
            && r.fields["locationCode"] == Str(LocationLabel(p.locationCode))
            && r.fields["isAvailable"]
               == Bool(reply.Ok? && !reply.value.Null? && AtLeast(GetOpt(Some(reply.value), "onlineStockAvailable"), p.quantity))
            && ("error" in r.fields <==> reply.Err? || reply.value.Null?)
            && ("stockOnHand" in r.fields <==> "error" !in r.fields)
            && (reply.Err? ==> r.fields["error"] == Str(reply.error.MessageOr("Unknown error")))
  {
  }

  /** One entry per requested code, in the order the codes were given. */
  function Results(p: StockParams, replies: seq<Result<Json, Thrown>>): (r: seq<Json>)
    requires |replies| == |p.productCodes|
    ensures |r| == |p.productCodes|
    ensures forall i :: 0 <= i < |r| ==> r[i] == Availability(p, p.productCodes[i], replies[i])
  {
    seq(|p.productCodes|, i requires 0 <= i < |p.productCodes| => Availability(p, p.productCodes[i], replies[i]))
  }

  /** `results.filter(r => r.isAvailable)` when `available`, the complement
    * otherwise. */
  function Flagged(results: seq<Json>, available: bool): (r: seq<Json>)
    ensures |r| <= |results|
    ensures forall x :: x in r ==> x in results && Truthy(GetOpt(Some(x), "isAvailable")) == available
    ensures forall x :: x in results && Truthy(GetOpt(Some(x), "isAvailable")) == available ==> x in r
  {
    if results == [] then []
    else (if Truthy(GetOpt(Some(results[0]), "isAvailable")) == available then [results[0]] else [])
         + Flagged(results[1..], available)
  }

  /** Every entry is counted exactly once, as available or as unavailable. */
  lemma {:induction false} FlaggedPartition(results: seq<Json>)
    ensures |Flagged(results, true)| + |Flagged(results, false)| == |results|
  {
    if results != [] {
      FlaggedPartition(results[1..]);
    }
  }

  /** The `availabilityCheck` data of a completed check. */
  function StockData(p: StockParams, results: seq<Json>): Json
  {
    Obj(map["availabilityCheck" := Obj(map[
      "locationCode" := Str(LocationLabel(p.locationCode)),
      "requestedQuantity" := Num(p.quantity),
      "results" := Arr(results),
      "summary" := Obj(map["totalProductsChecked" := Num(|p.productCodes|),
                           "availableProducts" := Num(|Flagged(results, true)|),
                           "unavailableProducts" := Num(|Flagged(results, false)|)])])])
  }

  /** The query of one lookup, assembled the way the handler does. */
  method BuildStockQuery(p: StockParams) returns (query: map<string, Json>)
    ensures query == WithText(map["quantity" := Num(p.quantity)], "locationCode", p.locationCode)
  {
    query := map["quantity" := Num(p.quantity)];
    if Filled(p.locationCode) {
      query := query["locationCode" := Str(p.locationCode.value)];
    }
  }

  /** The per-product loop: one lookup and one entry per code, in order; a
    * failing lookup is recorded and the loop goes on. */
  method CheckStock(p: StockParams, replies: seq<Result<Json, Thrown>>) returns (calls: seq<ApiRequest>, results: seq<Json>)
    requires |replies| == |p.productCodes|
    ensures |calls| == |p.productCodes|
    ensures forall i :: 0 <= i < |calls| ==> calls[i] == StockCall(p, p.productCodes[i])
    ensures results == Results(p, replies)
  {
    calls := [];
    results := [];
    var i := 0;
    while i < |p.productCodes|
      invariant 0 <= i <= |p.productCodes|
      invariant calls == StockCalls(p)[..i]
      invariant results == Results(p, replies)[..i]
    {
      var code := p.productCodes[i];
      var query := BuildStockQuery(p);
      var entry := Availability(p, code, replies[i]);
      var call := Call("GET", StockUrl(code), query, None);
      StockCallsStep(p, i);
      calls := calls + [call];
      ResultsStep(p, replies, i);
      results := results + [entry];
      i := i + 1;
    }
    assert StockCalls(p)[..i] == StockCalls(p);
    assert Results(p, replies)[..i] == Results(p, replies);
  }

  /** The lookups of a check, one per product code in order. */
  function StockCalls(p: StockParams): (r: seq<ApiRequest>)
    ensures |r| == |p.productCodes|
    ensures forall i :: 0 <= i < |r| ==> r[i] == StockCall(p, p.productCodes[i])
  {
    seq(|p.productCodes|, i requires 0 <= i < |p.productCodes| => StockCall(p, p.productCodes[i]))
  }

  lemma StockCallsStep(p: StockParams, i: nat)
    requires i < |p.productCodes|
    ensures StockCalls(p)[..i + 1] == StockCalls(p)[..i] + [StockCall(p, p.productCodes[i])]
  {
    assert StockCalls(p)[..i + 1] == StockCalls(p)[..i] + [StockCalls(p)[i]];
  }

  lemma ResultsStep(p: StockParams, replies: seq<Result<Json, Thrown>>, i: nat)
    requires |replies| == |p.productCodes| && i < |replies|
    ensures Results(p, replies)[..i + 1] == Results(p, replies)[..i] + [Availability(p, p.productCodes[i], replies[i])]
  {
    assert Results(p, replies)[..i + 1] == Results(p, replies)[..i] + [Results(p, replies)[i]];
  }

  /** The summary adds up: every requested product is counted once, as
    * available or as unavailable. */
  lemma SummaryAddsUp(p: StockParams, replies: seq<Result<Json, Thrown>>)
    requires |replies| == |p.productCodes|
    ensures var s := StockData(p, Results(p, replies)).fields["availabilityCheck"].fields["summary"].fields;
            s["availableProducts"].n + s["unavailableProducts"].n == s["totalProductsChecked"].n == |p.productCodes|
  {
    FlaggedPartition(Results(p, replies));
  }

  /** A product whose lookup fails is reported unavailable, so it is never
    * among the available products. */
  lemma FailedLookupUnavailable(p: StockParams, replies: seq<Result<Json, Thrown>>, i: nat)
    requires |replies| == |p.productCodes| && i < |replies|
    requires replies[i].Err?
    ensures Results(p, replies)[i] !in Flagged(Results(p, replies), true)
  {
    var r := Results(p, replies)[i];
    AvailabilityReports(p, p.productCodes[i], replies[i]);
    assert GetOpt(Some(r), "isAvailable") == Some(Bool(false));
  }

  /** When every lookup answers with enough stock, every product is
    * available. */
  lemma AllInStock(p: StockParams, replies: seq<Result<Json, Thrown>>)
    requires |replies| == |p.productCodes|
    requires forall i :: 0 <= i < |replies| ==>
               && replies[i].Ok? && replies[i].value.Obj?
               && "onlineStockAvailable" in replies[i].value.fields
               && replies[i].value.fields["onlineStockAvailable"].Num?
               && replies[i].value.fields["onlineStockAvailable"].n >= p.quantity
    ensures Flagged(Results(p, replies), true) == Results(p, replies)
  {
    var rs := Results(p, replies);
    forall i | 0 <= i < |rs|
      ensures Truthy(GetOpt(Some(rs[i]), "isAvailable"))
    {
      AvailabilityReports(p, p.productCodes[i], replies[i]);
      assert rs[i].fields["isAvailable"] == Bool(true);
    }
    AllFlagged(rs);
  }

  lemma {:induction false} AllFlagged(results: seq<Json>)
    requires forall i :: 0 <= i < |results| ==> Truthy(GetOpt(Some(results[i]), "isAvailable"))
    ensures Flagged(results, true) == results
  {
    if results != [] {
      AllFlagged(results[1..]);
      assert [results[0]] + results[1..] == results;
    }
  }

  /** `handleStockAvailability(args)`. `replies` holds what each product's
    * lookup settles with, in the order of the codes. */
  method HandleStockAvailability(args: Option<Json>, replies: seq<Result<Json, Thrown>>)
    returns (calls: seq<ApiRequest>, out: ToolOutcome)
    requires ParseStock(args).Ok? ==> |replies| == |ParseStock(args).value.productCodes|
    ensures ParseStock(args).Err? ==> calls == [] && out == Threw(ParseStock(args).error)
    ensures ParseStock(args).Ok? ==> var p := ParseStock(args).value;
              && |calls| == |p.productCodes|
              && (forall i :: 0 <= i < |calls| ==> calls[i] == StockCall(p, p.productCodes[i]))
              && out == Returned(Success(StockData(p, Results(p, replies))))
    ensures ParseStock(args).Ok? ==> calls == StockCalls(ParseStock(args).value)
  {
    var parsed := ParseStock(args);
    if parsed.Err? {
      return [], Threw(parsed.error);
    }
    var p := parsed.value;
    var results;
    calls, results := CheckStock(p, replies);
    out := Returned(Success(StockData(p, results)));
  }

  // ---------------------------------------------------------------------
  // handleInventoryTools

  /** What `handleInventoryTools(name, args)` sends and settles with, tool by
    * tool: `answer` is what a search or detail read settles with, `replies`
    * what each stock lookup settles with. */
  function Handled(name: string, args: Option<Json>, answer: Result<Json, Thrown>, replies: seq<Result<Json, Thrown>>): Handling
    requires Dispatch(name) == Ok(StockAvailability) && ParseStock(args).Ok? ==>
               |replies| == |ParseStock(args).value.productCodes|
  {
    match Dispatch(name)
    case Err(e) => Handling([], Threw(e))
    case Ok(Search) =>
      (match ParseSearch(args)
       case Err(e) => Handling([], Threw(e))
       case Ok(p) =>
         Handling([Call("GET", "/api/commerce/inventory", SearchQuery(p), None)],
                  Returned(Settle(AndThen(answer, "inventory"), "Failed to search inventory"))))
    case Ok(Details) =>
      (match ParseDetail(args)
       case Err(e) => Handling([], Threw(e))
       case Ok(p) =>
         Handling([Call("GET", DetailUrl(p), map["responseFields" := Str(Join(DetailFields(p), ","))], None)],
                  Returned(Settle(answer, "Failed to retrieve inventory details for product: " + p.productCode))))
    case Ok(StockAvailability) =>
      (match ParseStock(args)
       case Err(e) => Handling([], Threw(e))
       case Ok(p) => Handling(StockCalls(p), Returned(Success(StockData(p, Results(p, replies))))))
  }

  /** Search and details send at most one request, the availability check
    * one per product code, and every request is a GET. */
  lemma HandledRequests(name: string, args: Option<Json>, answer: Result<Json, Thrown>, replies: seq<Result<Json, Thrown>>)
    requires Dispatch(name) == Ok(StockAvailability) && ParseStock(args).Ok? ==>
               |replies| == |ParseStock(args).value.productCodes|
    ensures var calls := Handled(name, args, answer, replies).calls;
            && (Dispatch(name) != Ok(StockAvailability) ==> |calls| <= 1)
            && (Dispatch(name) == Ok(StockAvailability) ==> |calls| <= |replies|)
            && (forall c :: c in calls ==> c.verb == "GET")
  {
    match Dispatch(name)
    case Err(_) =>
    case Ok(Search) =>
    case Ok(Details) =>
    case Ok(StockAvailability) =>
      if ParseStock(args).Ok? {
        var p := ParseStock(args).value;
        forall c | c in StockCalls(p)
          ensures c.verb == "GET"
        {
          var i :| 0 <= i < |StockCalls(p)| && StockCalls(p)[i] == c;
        }
      }
  }

  /** `handleInventoryTools(name, args)`: an unknown name throws before any
    * request; search and details issue at most one request, the
    * availability check one per product code; the switch passes on its
    * handler's requests and outcome. */
  method HandleInventoryTools(name: string, args: Option<Json>, answer: Result<Json, Thrown>, replies: seq<Result<Json, Thrown>>)
    returns (calls: seq<ApiRequest>, out: ToolOutcome)
    requires Dispatch(name) == Ok(StockAvailability) && ParseStock(args).Ok? ==>
               |replies| == |ParseStock(args).value.productCodes|
    ensures Handling(calls, out) == Handled(name, args, answer, replies)
    ensures Dispatch(name).Err? ==> calls == [] && out == Threw(Error("Unknown inventory tool: " + name))
  {
    var handler := Dispatch(name);
    if handler.Err? {
      return [], Threw(handler.error);
    }
    var call: Option<ApiRequest>;
    match handler.value {
      case Search =>
        call, out := HandleSearch(args, answer);
        calls := if call.Some? then [call.value] else [];
      case Details =>
        call, out := HandleDetails(args, answer);
        calls := if call.Some? then [call.value] else [];
      case StockAvailability =>
        calls, out := HandleStockAvailability(args, replies);
    }
  }
}
