/** The product tools: search, product details and the category list. */
module ProductTools {
  import opened Js
  import opened BaseService
  import opened ToolSupport
  import opened Auth

  // ---------------------------------------------------------------------
  // Schemas

  const SearchSchema: seq<FieldSchema> := [
    FieldSchema("query", StringKind, Optional, None, None),
    FieldSchema("categoryCode", StringKind, Optional, None, None),
    FieldSchema("startIndex", NumberKind, Defaulted(Num(0)), Some(0), None),
    FieldSchema("pageSize", NumberKind, Defaulted(Num(20)), Some(1), Some(200)),
    FieldSchema("sortBy", StringKind, Optional, None, None),
    FieldSchema("includeDetails", BooleanKind, Defaulted(Bool(false)), None, None)]

  const DetailSchema: seq<FieldSchema> := [
    FieldSchema("productCode", StringKind, Required, None, None),
    FieldSchema("includeVariations", BooleanKind, Defaulted(Bool(true)), None, None),
    FieldSchema("includePricing", BooleanKind, Defaulted(Bool(true)), None, None),
    FieldSchema("includeInventory", BooleanKind, Defaulted(Bool(true)), None, None)]

  const CategorySchema: seq<FieldSchema> := [
    FieldSchema("parentCategoryCode", StringKind, Optional, None, None),
    FieldSchema("includeProducts", BooleanKind, Defaulted(Bool(false)), None, None),
    FieldSchema("maxDepth", NumberKind, Defaulted(Num(3)), Some(1), Some(5))]

  datatype SearchParams = SearchParams(
    query: Option<string>, categoryCode: Option<string>, startIndex: int, pageSize: int,
    sortBy: Option<string>, includeDetails: bool)

  datatype DetailParams = DetailParams(productCode: string, includeVariations: bool, includePricing: bool, includeInventory: bool)

  datatype CategoryParams = CategoryParams(parentCategoryCode: Option<string>, includeProducts: bool, maxDepth: int)

  /** `ProductSearchSchema.parse(args)`. */
  function ParseSearch(args: Option<Json>): (r: Result<SearchParams, Thrown>)
    ensures r.Ok? ==> 0 <= r.value.startIndex && 1 <= r.value.pageSize <= 200
    ensures r.Ok? && "startIndex" !in ArgsOf(args) ==> r.value.startIndex == 0
    ensures r.Ok? && "pageSize" !in ArgsOf(args) ==> r.value.pageSize == 20
    ensures r.Ok? && "includeDetails" !in ArgsOf(args) ==> !r.value.includeDetails
  {
    var m :- Parse(SearchSchema, args);
    ParsedNumber(SearchSchema, args, 2);
    ParsedNumber(SearchSchema, args, 3);
    ParsedBool(SearchSchema, args, 5);
    Ok(SearchParams(StringAt(m, "query"), StringAt(m, "categoryCode"), NumberAt(m, "startIndex"),
                    NumberAt(m, "pageSize"), StringAt(m, "sortBy"), BoolAt(m, "includeDetails")))
  }

  /** `ProductDetailSchema.parse(args)`. */
  function ParseDetail(args: Option<Json>): (r: Result<DetailParams, Thrown>)
    ensures r.Ok? ==> "productCode" in ArgsOf(args) && ArgsOf(args)["productCode"] == Str(r.value.productCode)
    ensures r.Ok? && "includeVariations" !in ArgsOf(args) ==> r.value.includeVariations
    ensures r.Ok? && "includePricing" !in ArgsOf(args) ==> r.value.includePricing
    ensures r.Ok? && "includeInventory" !in ArgsOf(args) ==> r.value.includeInventory
  {
    var m :- Parse(DetailSchema, args);
    ParsedString(DetailSchema, args, 0);
    ParsedBool(DetailSchema, args, 1);
    ParsedBool(DetailSchema, args, 2);
    ParsedBool(DetailSchema, args, 3);
    Ok(DetailParams(StringAt(m, "productCode").GetOr(""), BoolAt(m, "includeVariations"),
                    BoolAt(m, "includePricing"), BoolAt(m, "includeInventory")))
  }

  /** `CategorySearchSchema.parse(args)`: `maxDepth` is checked to lie in
    * 1..5 (3 when omitted) even though the request never uses it. */
  function ParseCategories(args: Option<Json>): (r: Result<CategoryParams, Thrown>)
    ensures r.Ok? ==> 1 <= r.value.maxDepth <= 5
    ensures r.Ok? && "maxDepth" !in ArgsOf(args) ==> r.value.maxDepth == 3
    ensures r.Ok? && "includeProducts" !in ArgsOf(args) ==> !r.value.includeProducts
  {
    var m :- Parse(CategorySchema, args);
    ParsedBool(CategorySchema, args, 1);
    ParsedNumber(CategorySchema, args, 2);
    Ok(CategoryParams(StringAt(m, "parentCategoryCode"), BoolAt(m, "includeProducts"), NumberAt(m, "maxDepth")))
  }

  // ---------------------------------------------------------------------
  // Catalog and dispatch

  const Catalog: seq<Tool> := [
    Tool("kibo_product_search",
         "Search for products in the Kibo Commerce catalog with filtering and pagination options",
         [Property("query", "string", None, None, None),
          Property("categoryCode", "string", None, None, None),
          Property("startIndex", "number", Some(0), None, Some(Num(0))),
          Property("pageSize", "number", Some(1), Some(200), Some(Num(20))),
          Property("sortBy", "string", None, None, None),
          Property("includeDetails", "boolean", None, None, Some(Bool(false)))],
         []),
    Tool("kibo_product_details",
         "Get detailed information about a specific product including variations, pricing, and inventory",
         [Property("productCode", "string", None, None, None),
          Property("includeVariations", "boolean", None, None, Some(Bool(true))),
          Property("includePricing", "boolean", None, None, Some(Bool(true))),
          Property("includeInventory", "boolean", None, None, Some(Bool(true)))],
         ["productCode"]),
    Tool("kibo_category_list",
         "Retrieve product categories and category tree structure",
         [Property("parentCategoryCode", "string", None, None, None),
          Property("includeProducts", "boolean", None, None, Some(Bool(false))),
          Property("maxDepth", "number", Some(1), Some(5), Some(Num(3)))],
         [])]

  /** Each advertised input schema matches the one its handler enforces. */
  lemma SearchCatalogEntry()
    ensures Describes(Catalog[0], SearchSchema)
  {
    SearchProperties();
    assert Catalog[0].required == RequiredNames(SearchSchema);
  }

  lemma SearchProperties()
    ensures |Catalog[0].properties| == |SearchSchema|
    ensures forall i :: 0 <= i < |SearchSchema| ==> Catalog[0].properties[i] == Advertised(SearchSchema[i])
  {
  }

  lemma DetailCatalogEntry()
    ensures Describes(Catalog[1], DetailSchema)
  {
  }

  lemma CategoryCatalogEntry()
    ensures Describes(Catalog[2], CategorySchema)
  {
  }

  datatype Handler = Search | Details | Categories {
    /** The position of the handler's tool in the catalog. */
    function Index(): nat { match this case Search => 0 case Details => 1 case Categories => 2 }
  }

  /** The advertised tool names, in catalog order. */
  const ToolNames := ["kibo_product_search", "kibo_product_details", "kibo_category_list"]

  lemma CatalogNames()
    ensures Names(Catalog) == ToolNames
  {
  }

  /** `handleProductTools`' switch. */
  function Dispatch(name: string): (r: Result<Handler, Thrown>)
    ensures r.Ok? <==> name in ToolNames
    ensures r.Ok? ==> ToolNames[r.value.Index()] == name
    ensures r.Err? ==> r.error == Error("Unknown product tool: " + name)
  {
    if name == "kibo_product_search" then Ok(Search)
    else if name == "kibo_product_details" then Ok(Details)
    else if name == "kibo_category_list" then Ok(Categories)
    else Err(Error("Unknown product tool: " + name))
  }

  // ---------------------------------------------------------------------
  // kibo_product_search

  const BriefFields := "items(productCode,productName,price,salePrice,imageUrl,categoryId),totalCount,pageCount,pageSize,startIndex"
  const DetailedFields := "items(productCode,productName,description,price,salePrice,imageUrl,categoryId,variations,inventoryInfo,options),totalCount,pageCount,pageSize,startIndex"

  /** The query parameters of a product search. The category filter is
    * written without quotes around the code. */
  function SearchQuery(p: SearchParams): map<string, Json>
  {
    var q := WithText(map["startIndex" := Num(p.startIndex), "pageSize" := Num(p.pageSize)], "q", p.query);
    var q := if Filled(p.categoryCode) then q["filter" := Str(Render(Clause("categoryCode", "eq", Bare(p.categoryCode.value))))] else q;
    WithText(q, "sortBy", p.sortBy)["responseFields" := Str(if p.includeDetails then DetailedFields else BriefFields)]
  }

  /** The query parameters, assembled the way the handler does. */
  method BuildSearchQuery(p: SearchParams) returns (q: map<string, Json>)
    ensures q == SearchQuery(p)
  {
    q := map["startIndex" := Num(p.startIndex), "pageSize" := Num(p.pageSize)];
    if Filled(p.query) {
      q := q["q" := Str(p.query.value)];
    }
    if Filled(p.categoryCode) {
      q := q["filter" := Str("categoryCode eq " + p.categoryCode.value)];
      assert Render(Clause("categoryCode", "eq", Bare(p.categoryCode.value))) == "categoryCode eq " + p.categoryCode.value;
    }
    if Filled(p.sortBy) {
      q := q["sortBy" := Str(p.sortBy.value)];
    }
    var responseFields := if p.includeDetails then DetailedFields else BriefFields;
    q := q["responseFields" := Str(responseFields)];
  }

  /** The text query is sent exactly when it is non-empty and the filter
    * exactly when a category is given, as `categoryCode eq <code>`; the
    * field list is one of two fixed lists. */
  lemma SearchQueryShape(p: SearchParams)
    ensures "q" in SearchQuery(p) <==> Filled(p.query)
    ensures Filled(p.query) ==> SearchQuery(p)["q"] == Str(p.query.value)
    ensures "filter" in SearchQuery(p) <==> Filled(p.categoryCode)
    ensures Filled(p.categoryCode) ==> SearchQuery(p)["filter"] == Str("categoryCode eq " + p.categoryCode.value)
    ensures SearchQuery(p)["responseFields"] == Str(if p.includeDetails then DetailedFields else BriefFields)
    ensures SearchQuery(p).Keys <= {"startIndex", "pageSize", "q", "filter", "sortBy", "responseFields"}
  {
  }

  /** `handleProductSearch(args)`. */
  method HandleSearch(args: Option<Json>, answer: Result<Json, Thrown>) returns (call: Option<ApiRequest>, out: ToolOutcome)
    ensures ParseSearch(args).Err? ==> call.None? && out == Threw(ParseSearch(args).error)
    ensures ParseSearch(args).Ok? ==>
              && call == Some(Call("GET", "/api/commerce/catalog/storefront/products", SearchQuery(ParseSearch(args).value), None))
              && out == Returned(Settle(AndThen(answer, "products"), "Failed to search products"))
  {
    var parsed := ParseSearch(args);
    if parsed.Err? {
      return None, Threw(parsed.error);
    }
    var q := BuildSearchQuery(parsed.value);
    call := Some(Call("GET", "/api/commerce/catalog/storefront/products", q, None));
    out := Returned(Settle(AndThen(answer, "products"), "Failed to search products"));
  }

  // ---------------------------------------------------------------------
  // kibo_product_details

  const DetailBaseFields := ["productCode", "productName", "description", "content", "price", "salePrice",
                             "imageUrl", "images", "categoryId", "productUsage", "fulfillmentTypesSupported",
                             "isPackagedStandAlone"]

  function DetailFields(p: DetailParams): seq<string>
  {
    DetailBaseFields + When(p.includeVariations, ["variations", "options", "properties"])
    + When(p.includePricing, ["priceRange", "priceListEntries"]) + When(p.includeInventory, ["inventoryInfo"])
  }

  /** The response fields, pushed the way the handler does. */
  method BuildDetailFields(p: DetailParams) returns (fields: seq<string>)
    ensures fields == DetailFields(p)
  {
    fields := DetailBaseFields;
    if p.includeVariations {
      fields := fields + ["variations", "options", "properties"];
    }
    if p.includePricing {
      fields := fields + ["priceRange", "priceListEntries"];
    }
    if p.includeInventory {
      fields := fields + ["inventoryInfo"];
    }
  }

  /** The 12 base fields come first; each group is present exactly when its
    * flag is set. */
  lemma DetailFieldsByFlag(p: DetailParams)
    ensures DetailFields(p)[..12] == DetailBaseFields
    ensures "variations" in DetailFields(p) <==> p.includeVariations
    ensures "options" in DetailFields(p) <==> p.includeVariations
    ensures "properties" in DetailFields(p) <==> p.includeVariations
    ensures "priceRange" in DetailFields(p) <==> p.includePricing
    ensures "priceListEntries" in DetailFields(p) <==> p.includePricing
    ensures "inventoryInfo" in DetailFields(p) <==> p.includeInventory
  {
    var f := DetailFields(p);
    var groups := When(p.includeVariations, ["variations", "options", "properties"])
                  + When(p.includePricing, ["priceRange", "priceListEntries"])
                  + When(p.includeInventory, ["inventoryInfo"]);
    assert f == DetailBaseFields + groups;
    OutsideBase(groups, f);
    InGroups(p.includeVariations, p.includePricing, p.includeInventory);
  }

  /** Each optional name belongs to one group only. */
  lemma InGroups(variations: bool, pricing: bool, inventory: bool)
    ensures var g := When(variations, ["variations", "options", "properties"])
                     + When(pricing, ["priceRange", "priceListEntries"]) + When(inventory, ["inventoryInfo"]);
            && ("variations" in g <==> variations) && ("options" in g <==> variations)
            && ("properties" in g <==> variations) && ("priceRange" in g <==> pricing)
            && ("priceListEntries" in g <==> pricing) && ("inventoryInfo" in g <==> inventory)
  {
  }

  /** None of the optional names is a base field, so each is in the list
    * exactly when its group is. */
  lemma OutsideBase(groups: seq<string>, f: seq<string>)
    requires f == DetailBaseFields + groups
    ensures forall x :: x in ["variations", "options", "properties", "priceRange", "priceListEntries", "inventoryInfo"] ==>
              (x in f <==> x in groups)
  {
    forall x | x in ["variations", "options", "properties", "priceRange", "priceListEntries", "inventoryInfo"]
      ensures x !in DetailBaseFields
    {
    }
  }

  /** With no flags given, all three groups are requested. */
  lemma DetailDefaults(args: Option<Json>)
    requires ParseDetail(args).Ok?
    requires "includeVariations" !in ArgsOf(args) && "includePricing" !in ArgsOf(args) && "includeInventory" !in ArgsOf(args)
    ensures |DetailFields(ParseDetail(args).value)| == 18
  {
  }

  function DetailUrl(productCode: string): (r: string)
    ensures StartsWith(r, "/api/commerce/catalog/storefront/products/")
  {
    "/api/commerce/catalog/storefront/products/" + EncodeURIComponent(productCode)
  }

  /** A product code cannot leave the storefront products collection:
    * whatever it holds, it fills exactly the last path segment. */
  lemma DetailUrlIsOneSegment(productCode: string)
    ensures var tail := DetailUrl(productCode)[|"/api/commerce/catalog/storefront/products/"|..];
            && tail == EncodeURIComponent(productCode)
            && forall i :: 0 <= i < |tail| ==> tail[i] != '/' && tail[i] != '?' && tail[i] != '#'
  {
    EncodedIsUrlSafe(productCode);
    assert DetailUrl(productCode)[|"/api/commerce/catalog/storefront/products/"|..] == EncodeURIComponent(productCode);
  }

  /** `handleProductDetails(args)`. */
  method HandleDetails(args: Option<Json>, answer: Result<Json, Thrown>) returns (call: Option<ApiRequest>, out: ToolOutcome)
    ensures ParseDetail(args).Err? ==> call.None? && out == Threw(ParseDetail(args).error)
    ensures ParseDetail(args).Ok? ==> var p := ParseDetail(args).value;
              && call == Some(Call("GET", DetailUrl(p.productCode),
                                   map["responseFields" := Str(Join(DetailFields(p), ","))], None))
              && out == Returned(Settle(answer, "Failed to retrieve product details for: " + p.productCode))
  {
    var parsed := ParseDetail(args);
    if parsed.Err? {
      return None, Threw(parsed.error);
    }
    var p := parsed.value;
    var fields := BuildDetailFields(p);
    call := Some(Call("GET", DetailUrl(p.productCode), map["responseFields" := Str(Join(fields, ","))], None));
    out := Returned(Settle(answer, "Failed to retrieve product details for: " + p.productCode));
  }

  // ---------------------------------------------------------------------
  // kibo_category_list

  const CategoryBaseFields := ["categoryCode", "categoryId", "content", "parentCategoryCode", "isDisplayed",
                               "count", "childrenCategories"]

  function CategoryFields(p: CategoryParams): seq<string>
  {
    CategoryBaseFields + When(p.includeProducts, ["products"])
  }

  /** The query parameters of a category listing; the parent filter is
    * written without quotes. */
  function CategoryQuery(p: CategoryParams): map<string, Json>
  {
    var q: map<string, Json> := map[];
    var q := if Filled(p.parentCategoryCode) then q["filter" := Str(Render(Clause("parentCategoryCode", "eq", Bare(p.parentCategoryCode.value))))] else q;
    q["responseFields" := Str(Join(CategoryFields(p), ","))]
  }

  /** The query parameters, assembled the way the handler does. */
  method BuildCategoryQuery(p: CategoryParams) returns (q: map<string, Json>)
    ensures q == CategoryQuery(p)
  {
    q := map[];
    if Filled(p.parentCategoryCode) {
      q := q["filter" := Str("parentCategoryCode eq " + p.parentCategoryCode.value)];
      assert Render(Clause("parentCategoryCode", "eq", Bare(p.parentCategoryCode.value)))
             == "parentCategoryCode eq " + p.parentCategoryCode.value;
    }
    assert q == (if Filled(p.parentCategoryCode) then map["filter" := Str(Render(Clause("parentCategoryCode", "eq", Bare(p.parentCategoryCode.GetOr("")))))] else map[]);
    var fields := CategoryBaseFields;
    if p.includeProducts {
      fields := fields + ["products"];
    }
    assert fields == CategoryFields(p);
    q := q["responseFields" := Str(Join(fields, ","))];
  }

  /** The filter is present exactly when a parent is given; products are
    * listed exactly when asked for; and the depth never reaches the request:
    * two listings that differ only in depth send the same query. */
  lemma CategoryQueryShape(p: CategoryParams, depth: int)
    ensures "filter" in CategoryQuery(p) <==> Filled(p.parentCategoryCode)
    ensures Filled(p.parentCategoryCode) ==> CategoryQuery(p)["filter"] == Str("parentCategoryCode eq " + p.parentCategoryCode.value)
    ensures "products" in CategoryFields(p) <==> p.includeProducts
    ensures CategoryQuery(p.(maxDepth := depth)) == CategoryQuery(p)
  {
  }

  /** The success data of a category listing: the items, `[]` when absent,
    * and the total, 0 when absent. Reading from a null reply throws. */
  function CategoryData(response: Json): (r: Result<Json, Thrown>)
    ensures r.Err? <==> response.Null?
    ensures r.Ok? ==> r.value.Obj? && r.value.fields.Keys == {"categories", "totalCount"}
    ensures r.Ok? ==> r.value.fields["categories"] == Or(GetOpt(Some(response), "items"), Arr([]))
    ensures r.Ok? ==> r.value.fields["totalCount"] == Or(GetOpt(Some(response), "totalCount"), Num(0))
  {
    if response.Null? then Err(Error("Cannot read properties of null (reading 'items')"))
    else Ok(Obj(map["categories" := Or(GetOpt(Some(response), "items"), Arr([])),
                    "totalCount" := Or(GetOpt(Some(response), "totalCount"), Num(0))]))
  }

  function CategoryAnswer(answer: Result<Json, Thrown>): Result<Json, Thrown>
  {
    match answer
    case Ok(response) => CategoryData(response)
    case Err(e) => Err(e)
  }

  /** `handleCategoryList(args)`. */
  method HandleCategories(args: Option<Json>, answer: Result<Json, Thrown>) returns (call: Option<ApiRequest>, out: ToolOutcome)
    ensures ParseCategories(args).Err? ==> call.None? && out == Threw(ParseCategories(args).error)
    ensures ParseCategories(args).Ok? ==>
              && call == Some(Call("GET", "/api/commerce/catalog/storefront/categories", CategoryQuery(ParseCategories(args).value), None))
              && out == Returned(Settle(CategoryAnswer(answer), "Failed to retrieve categories"))
  {
    var parsed := ParseCategories(args);
    if parsed.Err? {
      return None, Threw(parsed.error);
    }
    var q := BuildCategoryQuery(parsed.value);
    call := Some(Call("GET", "/api/commerce/catalog/storefront/categories", q, None));
    out := Returned(Settle(CategoryAnswer(answer), "Failed to retrieve categories"));
  }

  // ---------------------------------------------------------------------
  // handleProductTools

  /** What `handleProductTools(name, args)` sends and settles with, tool by
    * tool, when its one request settles with `answer`. */
  function Handled(name: string, args: Option<Json>, answer: Result<Json, Thrown>): Handling
  {
    match Dispatch(name)
    case Err(e) => Handling([], Threw(e))
    case Ok(Search) =>
      (match ParseSearch(args)
       case Err(e) => Handling([], Threw(e))
       case Ok(p) =>
         Handling([Call("GET", "/api/commerce/catalog/storefront/products", SearchQuery(p), None)],
                  Returned(Settle(AndThen(answer, "products"), "Failed to search products"))))
    case Ok(Details) =>
      (match ParseDetail(args)
       case Err(e) => Handling([], Threw(e))
       case Ok(p) =>
         Handling([Call("GET", DetailUrl(p.productCode), map["responseFields" := Str(Join(DetailFields(p), ","))], None)],
                  Returned(Settle(answer, "Failed to retrieve product details for: " + p.productCode))))
    case Ok(Categories) =>
      (match ParseCategories(args)
       case Err(e) => Handling([], Threw(e))
       case Ok(p) =>
         Handling([Call("GET", "/api/commerce/catalog/storefront/categories", CategoryQuery(p), None)],
                  Returned(Settle(CategoryAnswer(answer), "Failed to retrieve categories"))))
  }

  /** `handleProductTools(name, args)`: an unknown name throws before any
    * request; every tool issues at most one read, and the switch passes on
    * its handler's request and outcome. */
  method HandleProductTools(name: string, args: Option<Json>, answer: Result<Json, Thrown>)
    returns (call: Option<ApiRequest>, out: ToolOutcome)
    ensures Handling(Sent(call), out) == Handled(name, args, answer)
    ensures Dispatch(name).Err? ==> call.None? && out == Threw(Error("Unknown product tool: " + name))
    ensures Dispatch(name) == Ok(Search) ==> call.Some? ==> call.value.url == "/api/commerce/catalog/storefront/products"
    ensures Dispatch(name) == Ok(Categories) ==> call.Some? ==> call.value.url == "/api/commerce/catalog/storefront/categories"
    ensures call.Some? ==> call.value.verb == "GET"
  {
    var handler := Dispatch(name);
    if handler.Err? {
      return None, Threw(handler.error);
    }
    match handler.value {
      case Search => call, out := HandleSearch(args, answer);
      case Details => call, out := HandleDetails(args, answer);
      case Categories => call, out := HandleCategories(args, answer);
    }
  }
}
