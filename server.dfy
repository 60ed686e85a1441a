/** The server entry point: configuration from the environment, the
  * advertised tool list and the routing of a tool call to its group. */
module Server {
  import opened Js
  import opened Config
  import opened ToolSupport
  import opened Auth
  import ProductTools
  import OrderTools
  import CustomerTools
  import InventoryTools

  // ---------------------------------------------------------------------
  // Configuration

  /** The variables that must be set and non-empty, in the order they are
    * checked and reported. */
  const RequiredVars := ["KIBO_API_HOST", "KIBO_CLIENT_ID", "KIBO_CLIENT_SECRET", "KIBO_TENANT_ID", "KIBO_SITE_ID"]

  /** `process.env[name]` is truthy. */
  predicate IsSet(env: map<string, string>, name: string)
  {
    name in env && env[name] != ""
  }

  /** `process.env[name] || fallback`. */
  function EnvOr(env: map<string, string>, name: string, fallback: string): string
  {
    if IsSet(env, name) then env[name] else fallback
  }

  /** The variables of `names` that are unset or empty, in their order. */
  function Unset(env: map<string, string>, names: seq<string>): (r: seq<string>)
    ensures |r| <= |names|
  {
    if names == [] then []
    else (if IsSet(env, names[0]) then [] else [names[0]]) + Unset(env, names[1..])
  }

  /** A variable is reported exactly when it is listed and not set. */
  lemma {:induction false} UnsetMembers(env: map<string, string>, names: seq<string>, v: string)
    ensures v in Unset(env, names) <==> v in names && !IsSet(env, v)
  {
    if names != [] {
      UnsetMembers(env, names[1..], v);
      assert names == [names[0]] + names[1..];
    }
  }

  /** Reporting keeps the listed order: the unset variables of a
    * concatenation are those of the first part, then those of the second. */
  lemma {:induction false} UnsetKeepsOrder(env: map<string, string>, first: seq<string>, second: seq<string>)
    ensures Unset(env, first + second) == Unset(env, first) + Unset(env, second)
  {
    if first == [] {
      assert first + second == second;
    } else {
      assert (first + second)[1..] == first[1..] + second;
      UnsetKeepsOrder(env, first[1..], second);
    }
  }

  /** No required variable is unset exactly when each of the five is set. */
  lemma {:induction false} NoneUnset(env: map<string, string>)
    ensures Unset(env, RequiredVars) == [] <==>
              IsSet(env, "KIBO_API_HOST") && IsSet(env, "KIBO_CLIENT_ID") && IsSet(env, "KIBO_CLIENT_SECRET")
              && IsSet(env, "KIBO_TENANT_ID") && IsSet(env, "KIBO_SITE_ID")
  {
    var missing := Unset(env, RequiredVars);
    forall v ensures v in missing <==> v in RequiredVars && !IsSet(env, v) {
      UnsetMembers(env, RequiredVars, v);
    }
    assert RequiredVars[0] == "KIBO_API_HOST" && RequiredVars[1] == "KIBO_CLIENT_ID" && RequiredVars[2] == "KIBO_CLIENT_SECRET";
    assert RequiredVars[3] == "KIBO_TENANT_ID" && RequiredVars[4] == "KIBO_SITE_ID";
    if missing != [] {
      assert missing[0] in missing;
    }
  }

  /** `validateConfig()` over the process environment: every required
    * variable must be set and non-empty, or the error lists the ones that are
    * not, in order; the ids are parsed as integers, the master catalog only
    * when given, and locale, currency and log level fall back to their
    * defaults. */
  function ValidateConfig(env: map<string, string>): (r: Result<KiboConfig, Thrown>)
    ensures r.Ok? <==> forall v :: v in RequiredVars ==> IsSet(env, v)
    ensures r.Err? ==> r.error == Error("Missing required environment variables: " + Join(Unset(env, RequiredVars), ", "))
    ensures r.Ok? ==> && IsSet(env, "KIBO_API_HOST") && r.value.apiHost == env["KIBO_API_HOST"]
                      && IsSet(env, "KIBO_CLIENT_ID") && r.value.clientId == env["KIBO_CLIENT_ID"]
                      && IsSet(env, "KIBO_CLIENT_SECRET") && r.value.clientSecret == env["KIBO_CLIENT_SECRET"]
    ensures r.Ok? ==> && IsSet(env, "KIBO_TENANT_ID") && r.value.tenantId == ParseInt(env["KIBO_TENANT_ID"])
                      && IsSet(env, "KIBO_SITE_ID") && r.value.siteId == ParseInt(env["KIBO_SITE_ID"])
    ensures r.Ok? ==> r.value.masterCatalogId ==
                        (if IsSet(env, "KIBO_MASTER_CATALOG_ID") then Some(ParseInt(env["KIBO_MASTER_CATALOG_ID"])) else None)
    ensures r.Ok? ==> r.value.locale == EnvOr(env, "KIBO_LOCALE", "en-US")
    ensures r.Ok? ==> r.value.currency == EnvOr(env, "KIBO_CURRENCY", "USD")
    ensures r.Ok? ==> r.value.logLevel == EnvOr(env, "MCP_LOG_LEVEL", "info")
  {
    var missing := Unset(env, RequiredVars);
    assert forall v :: v in missing <==> v in RequiredVars && !IsSet(env, v) by {
      forall v ensures v in missing <==> v in RequiredVars && !IsSet(env, v) {
        UnsetMembers(env, RequiredVars, v);
      }
    }
    if |missing| > 0 then
      assert missing[0] in missing;
      Err(Error("Missing required environment variables: " + Join(missing, ", ")))
    else
      NoneUnset(env);
      Ok(KiboConfig(env["KIBO_API_HOST"], env["KIBO_CLIENT_ID"], env["KIBO_CLIENT_SECRET"],
                    ParseInt(env["KIBO_TENANT_ID"]), ParseInt(env["KIBO_SITE_ID"]),
                    if IsSet(env, "KIBO_MASTER_CATALOG_ID") then Some(ParseInt(env["KIBO_MASTER_CATALOG_ID"])) else None,
                    EnvOr(env, "KIBO_LOCALE", "en-US"), EnvOr(env, "KIBO_CURRENCY", "USD"),
                    EnvOr(env, "MCP_LOG_LEVEL", "info")))
  }

  /** An empty variable counts as missing, like an absent one. */
  lemma EmptyCountsAsMissing(env: map<string, string>, name: string)
    requires name in RequiredVars && name in env && env[name] == ""
    ensures ValidateConfig(env).Err? && name in Unset(env, RequiredVars)
  {
    UnsetMembers(env, RequiredVars, name);
  }

  /** With nothing set, every required variable is reported, in order. */
  lemma EmptyEnvironment()
    ensures ValidateConfig(map[]) == Err(Error("Missing required environment variables: " +
              ("KIBO_API_HOST" + ", " + "KIBO_CLIENT_ID" + ", " + "KIBO_CLIENT_SECRET" + ", " + "KIBO_TENANT_ID" + ", " + "KIBO_SITE_ID")))
  {
    NothingSet();
    RequiredJoined();
    var missing := Unset(map[], RequiredVars);
    assert |missing| > 0;
    assert ValidateConfig(map[]) == Err(Error("Missing required environment variables: " + Join(RequiredVars, ", ")));
  }

  lemma NothingSet()
    ensures Unset(map[], RequiredVars) == RequiredVars
  {
    var env: map<string, string> := map[];
    assert Unset(env, RequiredVars[4..]) == RequiredVars[4..];
    assert Unset(env, RequiredVars[3..]) == RequiredVars[3..];
    assert Unset(env, RequiredVars[2..]) == RequiredVars[2..];
    assert Unset(env, RequiredVars[1..]) == RequiredVars[1..];
  }

  lemma RequiredJoined()
    ensures Join(RequiredVars, ", ") ==
              "KIBO_API_HOST" + ", " + "KIBO_CLIENT_ID" + ", " + "KIBO_CLIENT_SECRET" + ", " + "KIBO_TENANT_ID" + ", " + "KIBO_SITE_ID"
  {
    var v := RequiredVars;
    assert Join(v[4..], ", ") == v[4];
    assert Join(v[3..], ", ") == v[3] + ", " + Join(v[4..], ", ");
    assert Join(v[2..], ", ") == v[2] + ", " + Join(v[3..], ", ");
    assert Join(v[1..], ", ") == v[1] + ", " + Join(v[2..], ", ");
    assert Join(v, ", ") == v[0] + ", " + Join(v[1..], ", ");
  }

  // ---------------------------------------------------------------------
  // Tool list and routing

  /** The advertised tools: the product, order, customer and inventory
    * catalogs, in that order. */
  const ToolList := ProductTools.Catalog + OrderTools.Catalog + CustomerTools.Catalog + InventoryTools.Catalog

  lemma ToolListNames()
    ensures Names(ToolList) == ["kibo_product_search", "kibo_product_details", "kibo_category_list",
                                "kibo_order_search", "kibo_order_details", "kibo_order_status_update",
                                "kibo_customer_search", "kibo_customer_details", "kibo_customer_order_history",
                                "kibo_inventory_search", "kibo_inventory_details", "kibo_stock_availability"]
  {
  }

  /** The four tool groups, each with its own handler. */
  datatype Group = ProductGroup | OrderGroup | CustomerGroup | InventoryGroup
  {
    function Catalog(): seq<Tool>
    {
      match this
      case ProductGroup => ProductTools.Catalog
      case OrderGroup => OrderTools.Catalog
      case CustomerGroup => CustomerTools.Catalog
      case InventoryGroup => InventoryTools.Catalog
    }

    /** The name prefix the server routes on. */
    function Prefix(): string
    {
      match this
      case ProductGroup => "kibo_product_"
      case OrderGroup => "kibo_order_"
      case CustomerGroup => "kibo_customer_"
      case InventoryGroup => "kibo_inventory_"
    }

    /** The group's own switch accepts the name. */
    predicate Handles(name: string)
    {
      match this
      case ProductGroup => ProductTools.Dispatch(name).Ok?
      case OrderGroup => OrderTools.Dispatch(name).Ok?
      case CustomerGroup => CustomerTools.Dispatch(name).Ok?
      case InventoryGroup => InventoryTools.Dispatch(name).Ok?
    }
  }

  /** The CallTool handler's if-chain: the first prefix the name starts
    * with, tested in product, order, customer, inventory order. */
  function Route(name: string): (r: Option<Group>)
    ensures r.Some? ==> StartsWith(name, r.value.Prefix())
    ensures r.None? <==> forall g: Group :: !StartsWith(name, g.Prefix())
  {
    if StartsWith(name, "kibo_product_") then Some(ProductGroup)
    else if StartsWith(name, "kibo_order_") then Some(OrderGroup)
    else if StartsWith(name, "kibo_customer_") then Some(CustomerGroup)
    else if StartsWith(name, "kibo_inventory_") then Some(InventoryGroup)
    else None
  }

  /** A name that differs from a prefix at position `k` does not start
    * with it. */
  lemma Mismatch(s: string, prefix: string, k: nat)
    requires k < |prefix| && k < |s| && s[k] != prefix[k]
    ensures !StartsWith(s, prefix)
  {
    if |prefix| <= |s| {
      assert s[..|prefix|][k] == s[k];
    }
  }

  /** The four prefixes exclude each other, so a name that starts with one
    * of them is routed to that group, whatever the order of the tests. */
  lemma RouteOf(name: string, g: Group)
    requires StartsWith(name, g.Prefix())
    ensures Route(name) == Some(g)
  {
    assert name[5] == g.Prefix()[5];
    forall h: Group | h != g ensures !StartsWith(name, h.Prefix()) {
      Mismatch(name, h.Prefix(), 5);
    }
  }

  /** Ten of the twelve advertised tools reach the group that advertises
    * them. */
  lemma RoutedTools()
    ensures Route("kibo_product_search") == Some(ProductGroup) && Route("kibo_product_details") == Some(ProductGroup)
    ensures Route("kibo_order_search") == Some(OrderGroup) && Route("kibo_order_details") == Some(OrderGroup)
    ensures Route("kibo_order_status_update") == Some(OrderGroup)
    ensures Route("kibo_customer_search") == Some(CustomerGroup) && Route("kibo_customer_details") == Some(CustomerGroup)
    ensures Route("kibo_customer_order_history") == Some(CustomerGroup)
    ensures Route("kibo_inventory_search") == Some(InventoryGroup) && Route("kibo_inventory_details") == Some(InventoryGroup)
  {
    ProductNamesRouted();
    OrderNamesRouted();
    CustomerNamesRouted();
    InventoryNamesRouted();
  }

  lemma ProductNamesRouted()
    ensures Route("kibo_product_search") == Some(ProductGroup) && Route("kibo_product_details") == Some(ProductGroup)
  {
    assert "kibo_product_search"[..13] == "kibo_product_";
    RouteOf("kibo_product_search", ProductGroup);
    assert "kibo_product_details"[..13] == "kibo_product_";
    RouteOf("kibo_product_details", ProductGroup);
  }

  lemma OrderNamesRouted()
    ensures Route("kibo_order_search") == Some(OrderGroup) && Route("kibo_order_details") == Some(OrderGroup)
    ensures Route("kibo_order_status_update") == Some(OrderGroup)
  {
    assert "kibo_order_search"[..11] == "kibo_order_";
    RouteOf("kibo_order_search", OrderGroup);
    assert "kibo_order_details"[..11] == "kibo_order_";
    RouteOf("kibo_order_details", OrderGroup);
    assert "kibo_order_status_update"[..11] == "kibo_order_";
    RouteOf("kibo_order_status_update", OrderGroup);
  }

  lemma CustomerNamesRouted()
    ensures Route("kibo_customer_search") == Some(CustomerGroup) && Route("kibo_customer_details") == Some(CustomerGroup)
    ensures Route("kibo_customer_order_history") == Some(CustomerGroup)
  {
    assert "kibo_customer_search"[..14] == "kibo_customer_";
    RouteOf("kibo_customer_search", CustomerGroup);
    assert "kibo_customer_details"[..14] == "kibo_customer_";
    RouteOf("kibo_customer_details", CustomerGroup);
    assert "kibo_customer_order_history"[..14] == "kibo_customer_";
    RouteOf("kibo_customer_order_history", CustomerGroup);
  }

  lemma InventoryNamesRouted()
    ensures Route("kibo_inventory_search") == Some(InventoryGroup) && Route("kibo_inventory_details") == Some(InventoryGroup)
  {
    assert "kibo_inventory_search"[..15] == "kibo_inventory_";
    RouteOf("kibo_inventory_search", InventoryGroup);
    assert "kibo_inventory_details"[..15] == "kibo_inventory_";
    RouteOf("kibo_inventory_details", InventoryGroup);
  }

  /** The category list and the stock availability check are advertised,
    * but their names start with none of the four prefixes, so no call to
    * them reaches a handler. */
  lemma UnroutableTools()
    ensures "kibo_category_list" in Names(ToolList) && Route("kibo_category_list").None?
    ensures "kibo_stock_availability" in Names(ToolList) && Route("kibo_stock_availability").None?
  {
    ToolListNames();
    assert Names(ToolList)[2] == "kibo_category_list" && Names(ToolList)[11] == "kibo_stock_availability";
    forall g: Group
      ensures !StartsWith("kibo_category_list", g.Prefix()) && !StartsWith("kibo_stock_availability", g.Prefix())
    {
      Mismatch("kibo_stock_availability", g.Prefix(), 5);
      if g == CustomerGroup {
        Mismatch("kibo_category_list", g.Prefix(), 6);
      } else {
        Mismatch("kibo_category_list", g.Prefix(), 5);
      }
    }
  }

  /** Routing by the catalogs instead of by prefix: the first group whose
    * catalog advertises the name. */
  function RouteByCatalog(name: string): (r: Option<Group>)
    ensures r.Some? ==> name in Names(r.value.Catalog())
  {
    if name in Names(ProductTools.Catalog) then Some(ProductGroup)
    else if name in Names(OrderTools.Catalog) then Some(OrderGroup)
    else if name in Names(CustomerTools.Catalog) then Some(CustomerGroup)
    else if name in Names(InventoryTools.Catalog) then Some(InventoryGroup)
    else None
  }

  lemma {:induction false} NamesAppend(a: seq<Tool>, b: seq<Tool>)
    ensures Names(a + b) == Names(a) + Names(b)
  {
    assert forall i :: 0 <= i < |a| + |b| ==> Names(a + b)[i] == (Names(a) + Names(b))[i];
  }

  /** Every advertised tool, and only an advertised tool, is routed by the
    * catalogs, and to a group whose switch handles it. */
  lemma CatalogRoutingIsComplete(name: string)
    ensures RouteByCatalog(name).Some? <==> name in Names(ToolList)
    ensures RouteByCatalog(name).Some? ==> RouteByCatalog(name).value.Handles(name)
  {
    NamesAppend(ProductTools.Catalog, OrderTools.Catalog);
    NamesAppend(ProductTools.Catalog + OrderTools.Catalog, CustomerTools.Catalog);
    NamesAppend(ProductTools.Catalog + OrderTools.Catalog + CustomerTools.Catalog, InventoryTools.Catalog);
  }

  /** Where the prefix routing reaches a handler at all, it picks the group
    * whose catalog advertises the tool, as the catalog routing does. */
  lemma RoutingsAgree(name: string, g: Group)
    requires name in Names(g.Catalog()) && Route(name).Some?
    ensures Route(name) == Some(g) && RouteByCatalog(name) == Some(g)
  {
    match g {
      case ProductGroup =>
        ProductTools.CatalogNames();
        if name == "kibo_category_list" {
          UnroutableTools();
          assert false;
        }
        ProductNamesRouted();
      case OrderGroup => OrderRouting(name);
      case CustomerGroup => CustomerRouting(name);
      case InventoryGroup =>
        InventoryTools.CatalogNames();
        if name == "kibo_stock_availability" {
          UnroutableTools();
          assert false;
        }
        InventoryRouting(name);
    }
  }

  lemma OrderRouting(name: string)
    requires name in Names(OrderTools.Catalog)
    ensures Route(name) == Some(OrderGroup) && RouteByCatalog(name) == Some(OrderGroup)
  {
    OrderTools.CatalogNames();
    OrderNamesRouted();
    OrderNamesByCatalog();
  }

  lemma OrderNamesByCatalog()
    ensures RouteByCatalog("kibo_order_search") == Some(OrderGroup)
    ensures RouteByCatalog("kibo_order_details") == Some(OrderGroup)
    ensures RouteByCatalog("kibo_order_status_update") == Some(OrderGroup)
  {
    ProductTools.CatalogNames();
    OrderTools.CatalogNames();
  }

  lemma CustomerRouting(name: string)
    requires name in Names(CustomerTools.Catalog)
    ensures Route(name) == Some(CustomerGroup) && RouteByCatalog(name) == Some(CustomerGroup)
  {
    CustomerTools.CatalogNames();
    CustomerNamesRouted();
    CustomerNamesByCatalog();
  }

  lemma CustomerNamesByCatalog()
    ensures RouteByCatalog("kibo_customer_search") == Some(CustomerGroup)
    ensures RouteByCatalog("kibo_customer_details") == Some(CustomerGroup)
    ensures RouteByCatalog("kibo_customer_order_history") == Some(CustomerGroup)
  {
    ProductTools.CatalogNames();
    OrderTools.CatalogNames();
    CustomerTools.CatalogNames();
  }

  lemma InventoryRouting(name: string)
    requires name == "kibo_inventory_search" || name == "kibo_inventory_details"
    ensures Route(name) == Some(InventoryGroup) && RouteByCatalog(name) == Some(InventoryGroup)
  {
    InventoryNamesRouted();
    InventoryNamesByCatalog();
  }

  lemma InventoryNamesByCatalog()
    ensures RouteByCatalog("kibo_inventory_search") == Some(InventoryGroup)
    ensures RouteByCatalog("kibo_inventory_details") == Some(InventoryGroup)
  {
    ProductTools.CatalogNames();
    OrderTools.CatalogNames();
    CustomerTools.CatalogNames();
    InventoryTools.CatalogNames();
  }

  // ---------------------------------------------------------------------
  // CallTool

  /** JSON-RPC 2.0 error codes (section 5.1 of the JSON-RPC 2.0
    * specification) the server raises. */
  const MethodNotFound := -32601
  const InternalError := -32603

  /** The error a failed call is re-raised as. */
  function Internal(message: string): Thrown
  {
    McpError(InternalError, "Tool execution failed: " + message)
  }

  /** The error a group's switch throws for a name it does not know. */
  function UnknownToolMessage(group: Group, name: string): string
  {
    match group
    case ProductGroup => "Unknown product tool: " + name
    case OrderGroup => "Unknown order tool: " + name
    case CustomerGroup => "Unknown customer tool: " + name
    case InventoryGroup => "Unknown inventory tool: " + name
  }

  /** What the client receives for a handler's outcome: the result, or the
    * thrown error re-raised as an internal error. */
  function ToClient(out: ToolOutcome): (r: Result<Json, Thrown>)
    ensures out.Returned? ==> r == Ok(out.result)
    ensures out.Threw? ==> r == Err(Internal(out.error.MessageOr("Unknown error")))
  {
    match out
    case Returned(result) => Ok(result)
    case Threw(e) => Err(Internal(e.MessageOr("Unknown error")))
  }

  /** What the handler of `group` sends and settles with. `answer` is what a
    * single request settles with (the read, for a status update), `stored`
    * what a status update's write settles with, and `replies` what each
    * stock lookup settles with. */
  function GroupHandled(group: Group, name: string, args: Option<Json>, answer: Result<Json, Thrown>, stored: Result<Json, Thrown>,
                        updateDate: string, noteDate: string, replies: seq<Result<Json, Thrown>>): Handling
    requires InventoryTools.Dispatch(name) == Ok(InventoryTools.StockAvailability) && InventoryTools.ParseStock(args).Ok? ==>
               |replies| == |InventoryTools.ParseStock(args).value.productCodes|
  {
    match group
    case ProductGroup => ProductTools.Handled(name, args, answer)
    case OrderGroup => OrderTools.Handled(name, args, answer, stored, updateDate, noteDate)
    case CustomerGroup => CustomerTools.Handled(name, args, answer)
    case InventoryGroup => InventoryTools.Handled(name, args, answer, replies)
  }

  /** Runs the handler of `group`: its requests and outcome are the group's
    * switch's, and a name the switch does not know throws its own error
    * before any request. */
  method RunGroup(group: Group, name: string, args: Option<Json>, answer: Result<Json, Thrown>, stored: Result<Json, Thrown>,
                  updateDate: string, noteDate: string, replies: seq<Result<Json, Thrown>>)
    returns (calls: seq<ApiRequest>, out: ToolOutcome)
    requires InventoryTools.Dispatch(name) == Ok(InventoryTools.StockAvailability) && InventoryTools.ParseStock(args).Ok? ==>
               |replies| == |InventoryTools.ParseStock(args).value.productCodes|
    ensures Handling(calls, out) == GroupHandled(group, name, args, answer, stored, updateDate, noteDate, replies)
    ensures !group.Handles(name) ==> calls == [] && out == Threw(Error(UnknownToolMessage(group, name)))
  {
    match group {
      case ProductGroup =>
        var call;
        call, out := ProductTools.HandleProductTools(name, args, answer);
        calls := Sent(call);
      case OrderGroup =>
        calls, out := OrderTools.HandleOrderTools(name, args, answer, stored, updateDate, noteDate);
      case CustomerGroup =>
        var call;
        call, out := CustomerTools.HandleCustomerTools(name, args, answer);
        calls := Sent(call);
      case InventoryGroup =>
        calls, out := InventoryTools.HandleInventoryTools(name, args, answer, replies);
    }
  }

  /** The CallTool request handler as written: a name that matches no
    * prefix is rejected as an unknown method, but inside the same `try`, so
    * it reaches the client re-raised as an internal error, like every error
    * a handler throws. */
  method CallTool(name: string, args: Option<Json>, answer: Result<Json, Thrown>, stored: Result<Json, Thrown>,
                  updateDate: string, noteDate: string, replies: seq<Result<Json, Thrown>>)
    returns (calls: seq<ApiRequest>, result: Result<Json, Thrown>)
    requires InventoryTools.Dispatch(name) == Ok(InventoryTools.StockAvailability) && InventoryTools.ParseStock(args).Ok? ==>
               |replies| == |InventoryTools.ParseStock(args).value.productCodes|
    ensures Route(name).None? ==> calls == [] && result == Err(Internal(McpError(MethodNotFound, "Unknown tool: " + name).Message()))
    ensures Route(name).Some? ==>
              var h := GroupHandled(Route(name).value, name, args, answer, stored, updateDate, noteDate, replies);
              calls == h.calls && result == ToClient(h.out)
    ensures Route(name).Some? && !Route(name).value.Handles(name) ==>
              calls == [] && result == Err(Internal(UnknownToolMessage(Route(name).value, name)))
    ensures result.Err? ==> exists m :: result.error == Internal(m)
  {
    var group := Route(name);
    if group.None? {
      var notFound := McpError(MethodNotFound, "Unknown tool: " + name);
      return [], Err(Internal(notFound.Message()));
    }
    var out;
    calls, out := RunGroup(group.value, name, args, answer, stored, updateDate, noteDate, replies);
    result := ToClient(out);
  }

  /** A call to an advertised tool the prefixes miss fails with this exact
    * internal error, without any request. */
  lemma AdvertisedButRejected()
    ensures Route("kibo_category_list").None?
    ensures Internal(McpError(MethodNotFound, "Unknown tool: kibo_category_list").Message())
            == McpError(-32603, "Tool execution failed: " + ("MCP error " + "-32601" + ": " + "Unknown tool: kibo_category_list"))
  {
    UnroutableTools();
    MethodNotFoundText();
  }

  lemma MethodNotFoundText()
    ensures IntToString(MethodNotFound) == "-32601"
  {
    assert NatToString(3) == "3";
    assert NatToString(32) == NatToString(3) + "2";
    assert NatToString(326) == NatToString(32) + "6";
    assert NatToString(3260) == NatToString(326) + "0";
    assert NatToString(32601) == NatToString(3260) + "1";
  }

  /** The CallTool handler with both routing defects corrected: a call is
    * routed by the catalogs, and a name no catalog advertises is reported to
    * the client as an unknown method instead of an internal error. */
  method CallToolFixed(name: string, args: Option<Json>, answer: Result<Json, Thrown>, stored: Result<Json, Thrown>,
                       updateDate: string, noteDate: string, replies: seq<Result<Json, Thrown>>)
    returns (calls: seq<ApiRequest>, result: Result<Json, Thrown>)
    requires InventoryTools.Dispatch(name) == Ok(InventoryTools.StockAvailability) && InventoryTools.ParseStock(args).Ok? ==>
               |replies| == |InventoryTools.ParseStock(args).value.productCodes|
    ensures RouteByCatalog(name).None? ==> calls == [] && result == Err(McpError(MethodNotFound, "Unknown tool: " + name))
    ensures RouteByCatalog(name).Some? ==>
              var h := GroupHandled(RouteByCatalog(name).value, name, args, answer, stored, updateDate, noteDate, replies);
              && calls == h.calls && result == ToClient(h.out)
              && (result.Err? ==> exists m :: result.error == Internal(m))
  {
    var group := RouteByCatalog(name);
    if group.None? {
      return [], Err(McpError(MethodNotFound, "Unknown tool: " + name));
    }
    var out;
    calls, out := RunGroup(group.value, name, args, answer, stored, updateDate, noteDate, replies);
    result := ToClient(out);
  }

  /** With the corrected routing, a call to any advertised tool reaches its
    * group's handler, so it is never rejected by a group's switch. */
  lemma FixedReachesEveryTool(name: string)
    requires name in Names(ToolList)
    ensures RouteByCatalog(name).Some? && RouteByCatalog(name).value.Handles(name)
  {
    CatalogRoutingIsComplete(name);
  }
}
