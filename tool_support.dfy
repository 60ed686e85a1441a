/** What the four tool groups share: argument schemas and their parsing,
  * catalog entries, optional filter clauses and the result envelopes. */
module ToolSupport {
  import opened Js
  import opened BaseService
  import Auth

  // ---------------------------------------------------------------------
  // Argument schemas

  datatype Kind = StringKind | NumberKind | BooleanKind | StringListKind

  /** How a field may be left out: it must be given, may be omitted, or is
    * filled with a default value when omitted. */
  datatype Presence = Required | Optional | Defaulted(value: Json)

  /** One field of an object schema, with its declared bounds. */
  datatype FieldSchema = FieldSchema(name: string, kind: Kind, presence: Presence, minimum: Option<int>, maximum: Option<int>)

  predicate HasKind(v: Json, kind: Kind)
  {
    match kind
    case StringKind => v.Str?
    case NumberKind => v.Num?
    case BooleanKind => v.Bool?
    case StringListKind => v.Arr? && forall i :: 0 <= i < |v.items| ==> v.items[i].Str?
  }

  predicate WithinBounds(n: int, f: FieldSchema)
  {
    (f.minimum.Some? ==> f.minimum.value <= n) && (f.maximum.Some? ==> n <= f.maximum.value)
  }

  /** A given value passes the field's checks. */
  predicate Accepts(f: FieldSchema, v: Json)
  {
    HasKind(v, f.kind) && (v.Num? ==> WithinBounds(v.n, f))
  }

  /** The value a field contributes to the parsed object, or the failure. */
  function ParseField(f: FieldSchema, args: map<string, Json>): (r: Result<Option<Json>, Thrown>)
    ensures f.name in args ==> (r.Ok? <==> Accepts(f, args[f.name])) && (r.Ok? ==> r.value == Some(args[f.name]))
    ensures f.name !in args ==> (r.Ok? <==> !f.presence.Required?)
    ensures f.name !in args && f.presence.Defaulted? ==> r == Ok(Some(f.presence.value))
    ensures f.name !in args && f.presence.Optional? ==> r == Ok(None)
    ensures r.Err? ==> r.error == SchemaError(f.name)
  {
    if f.name in args then
      if Accepts(f, args[f.name]) then Ok(Some(args[f.name])) else Err(SchemaError(f.name))
    else match f.presence
      case Required => Err(SchemaError(f.name))
      case Optional => Ok(None)
      case Defaulted(d) => Ok(Some(d))
  }

  predicate DistinctNames(schema: seq<FieldSchema>)
  {
    forall i, j :: 0 <= i < j < |schema| ==> schema[i].name != schema[j].name
  }

  /** Every field of the schema, checked in declaration order; fields the
    * schema does not declare are dropped. */
  function ParseFields(schema: seq<FieldSchema>, args: map<string, Json>): (r: Result<map<string, Json>, Thrown>)
    requires DistinctNames(schema)
    ensures r.Ok? <==> forall i :: 0 <= i < |schema| ==> ParseField(schema[i], args).Ok?
    ensures r.Ok? ==> forall i :: 0 <= i < |schema| ==> ParseField(schema[i], args) == Ok(Lookup(r.value, schema[i].name))
    ensures r.Ok? ==> forall k :: k in r.value ==> exists i :: 0 <= i < |schema| && schema[i].name == k
  {
    if schema == [] then Ok(map[])
    else
      var first :- ParseField(schema[0], args);
      var rest :- ParseFields(schema[1..], args);
      assert forall i :: 1 <= i < |schema| ==> schema[i] == schema[1..][i - 1];
      Ok(if first.Some? then rest[schema[0].name := first.value] else rest)
  }

  /** The arguments' own properties; none when they are not an object. */
  function ArgsOf(args: Option<Json>): map<string, Json>
  {
    if args.Some? && args.value.Obj? then args.value.fields else map[]
  }

  /** `Schema.parse(args)`: the arguments must be an object, then every field
    * is checked. */
  function Parse(schema: seq<FieldSchema>, args: Option<Json>): (r: Result<map<string, Json>, Thrown>)
    requires DistinctNames(schema)
    ensures r.Ok? <==> args.Some? && args.value.Obj? && ParseFields(schema, ArgsOf(args)).Ok?
    ensures r.Ok? ==> r == ParseFields(schema, ArgsOf(args))
  {
    if args.Some? && args.value.Obj? then ParseFields(schema, ArgsOf(args)) else Err(SchemaError(""))
  }

  /** A parsed field, for each kind. */
  function StringAt(m: map<string, Json>, key: string): Option<string>
  {
    if key in m && m[key].Str? then Some(m[key].s) else None
  }

  function NumberAt(m: map<string, Json>, key: string): int
  {
    if key in m && m[key].Num? then m[key].n else 0
  }

  function BoolAt(m: map<string, Json>, key: string): bool
  {
    key in m && m[key].Bool? && m[key].b
  }

  function OptBoolAt(m: map<string, Json>, key: string): Option<bool>
  {
    if key in m && m[key].Bool? then Some(m[key].b) else None
  }

  function StringsAt(m: map<string, Json>, key: string): seq<string>
  {
    if key in m && m[key].Arr? then
      var items := m[key].items;
      seq(|items|, i requires 0 <= i < |items| => if items[i].Str? then items[i].s else "")
    else []
  }

  /** What a parsed schema guarantees about a number field: it lies within
    * the declared bounds, and it is the default when the field was omitted. */
  lemma ParsedNumber(schema: seq<FieldSchema>, args: Option<Json>, i: nat)
    requires DistinctNames(schema) && i < |schema|
    requires schema[i].kind == NumberKind
    requires schema[i].presence.Defaulted? ==> schema[i].presence.value.Num? && WithinBounds(schema[i].presence.value.n, schema[i])
    requires Parse(schema, args).Ok?
    ensures var m := Parse(schema, args).value;
            var f := schema[i];
            (f.presence.Required? || f.presence.Defaulted?) ==>
              && WithinBounds(NumberAt(m, f.name), f)
              && (f.name !in ArgsOf(args) && f.presence.Defaulted? ==> NumberAt(m, f.name) == f.presence.value.n)
              && (f.name in ArgsOf(args) ==> NumberAt(m, f.name) == ArgsOf(args)[f.name].n)
  {
    var m := Parse(schema, args).value;
    assert ParseField(schema[i], ArgsOf(args)) == Ok(Lookup(m, schema[i].name));
  }

  /** What a parsed schema guarantees about a boolean field. */
  lemma ParsedBool(schema: seq<FieldSchema>, args: Option<Json>, i: nat)
    requires DistinctNames(schema) && i < |schema|
    requires schema[i].kind == BooleanKind
    requires Parse(schema, args).Ok?
    ensures var m := Parse(schema, args).value;
            var f := schema[i];
            && (f.name in ArgsOf(args) ==> OptBoolAt(m, f.name) == Some(ArgsOf(args)[f.name].b))
            && (f.name !in ArgsOf(args) ==> f.presence.Defaulted? ==> Lookup(m, f.name) == Some(f.presence.value))
            && (f.name !in ArgsOf(args) ==> f.presence.Optional? ==> OptBoolAt(m, f.name).None?)
  {
    var m := Parse(schema, args).value;
    assert ParseField(schema[i], ArgsOf(args)) == Ok(Lookup(m, schema[i].name));
  }

  /** What a parsed schema guarantees about a string field. */
  lemma ParsedString(schema: seq<FieldSchema>, args: Option<Json>, i: nat)
    requires DistinctNames(schema) && i < |schema|
    requires schema[i].kind == StringKind
    requires Parse(schema, args).Ok?
    ensures var m := Parse(schema, args).value;
            var f := schema[i];
            && (f.name in ArgsOf(args) ==> StringAt(m, f.name) == Some(ArgsOf(args)[f.name].s))
            && (f.name !in ArgsOf(args) ==> f.presence.Optional? ==> StringAt(m, f.name).None?)
            && (f.presence.Required? ==> StringAt(m, f.name).Some?)
  {
    var m := Parse(schema, args).value;
    assert ParseField(schema[i], ArgsOf(args)) == Ok(Lookup(m, schema[i].name));
  }

  /** What a parsed schema guarantees about a required list of strings: the
    * parsed list is the given array, element by element. */
  lemma ParsedStrings(schema: seq<FieldSchema>, args: Option<Json>, i: nat)
    requires DistinctNames(schema) && i < |schema|
    requires schema[i].kind == StringListKind && schema[i].presence.Required?
    requires Parse(schema, args).Ok?
    ensures var m := Parse(schema, args).value;
            var f := schema[i];
            && f.name in ArgsOf(args) && ArgsOf(args)[f.name].Arr?
            && |StringsAt(m, f.name)| == |ArgsOf(args)[f.name].items|
            && forall j :: 0 <= j < |StringsAt(m, f.name)| ==> ArgsOf(args)[f.name].items[j] == Str(StringsAt(m, f.name)[j])
  {
    var m := Parse(schema, args).value;
    assert ParseField(schema[i], ArgsOf(args)) == Ok(Lookup(m, schema[i].name));
  }

  // ---------------------------------------------------------------------
  // Catalog entries

  /** One advertised property of a tool's input schema. */
  datatype Property = Property(name: string, typeName: string, minimum: Option<int>, maximum: Option<int>, default: Option<Json>)

  /** One advertised tool. */
  datatype Tool = Tool(name: string, description: string, properties: seq<Property>, required: seq<string>)

  function TypeName(kind: Kind): string
  {
    match kind
    case StringKind => "string"
    case NumberKind => "number"
    case BooleanKind => "boolean"
    case StringListKind => "array"
  }

  /** The property a schema field is advertised as. */
  function Advertised(f: FieldSchema): Property
  {
    Property(f.name, TypeName(f.kind), f.minimum, f.maximum,
             if f.presence.Defaulted? then Some(f.presence.value) else None)
  }

  function RequiredNames(schema: seq<FieldSchema>): seq<string>
  {
    if schema == [] then []
    else (if schema[0].presence.Required? then [schema[0].name] else []) + RequiredNames(schema[1..])
  }

  /** The catalog entry advertises exactly the fields, types, bounds,
    * defaults and required list the schema enforces. */
  predicate Describes(tool: Tool, schema: seq<FieldSchema>)
  {
    && |tool.properties| == |schema|
    && (forall i :: 0 <= i < |schema| ==> tool.properties[i] == Advertised(schema[i]))
    && tool.required == RequiredNames(schema)
  }

  function Names(tools: seq<Tool>): seq<string>
  {
    seq(|tools|, i requires 0 <= i < |tools| => tools[i].name)
  }

  // ---------------------------------------------------------------------
  // Optional filter clauses and fields

  /** Entries added only when their condition holds. */
  function When(flag: bool, names: seq<string>): seq<string>
  {
    if flag then names else []
  }

  /** `key` set to the text when it is non-empty, left out otherwise. */
  function WithText(q: map<string, Json>, key: string, value: Option<string>): (r: map<string, Json>)
    ensures Filled(value) ==> r == q[key := Str(value.value)]
    ensures !Filled(value) ==> r == q
  {
    if Filled(value) then q[key := Str(value.value)] else q
  }

  /** `filter` set to the rendered clauses joined by `' and '`, left out when
    * there are none. */
  function WithFilter(q: map<string, Json>, filters: seq<string>): (r: map<string, Json>)
    ensures filters != [] ==> r == q["filter" := Str(Join(filters, " and "))]
    ensures filters == [] ==> r == q
  {
    if filters != [] then q["filter" := Str(Join(filters, " and "))] else q
  }

  // ---------------------------------------------------------------------
  // Result envelopes

  /** A tool call either returns a result or throws. */
  datatype ToolOutcome = Returned(result: Json) | Threw(error: Thrown)

  /** What a tool's handler does: the requests it sends, in order, and what
    * it settles with. */
  datatype Handling = Handling(calls: seq<Auth.ApiRequest>, out: ToolOutcome)

  /** The requests of a handler that sends at most one. */
  function Sent(call: Option<Auth.ApiRequest>): seq<Auth.ApiRequest>
  {
    if call.Some? then [call.value] else []
  }

  /** The `{ success: false, error, details }` envelope of a caught failure. */
  function Failure(error: Thrown, details: string): (r: Json)
    ensures r.Obj? && r.fields.Keys == {"success", "error", "details"}
    ensures r.fields["success"] == Bool(false)
    ensures r.fields["error"] == Str(error.MessageOr("Unknown error occurred"))
    ensures r.fields["details"] == Str(details)
  {
    Obj(map["success" := Bool(false), "error" := Str(error.MessageOr("Unknown error occurred")), "details" := Str(details)])
  }

  /** The `{ success: true, data }` envelope. */
  function Success(data: Json): Json
  {
    Obj(map["success" := Bool(true), "data" := data])
  }

  /** `response.k || 0` for the four pagination counters. */
  function PaginationOf(response: Json): (r: Result<Json, Thrown>)
    ensures r.Err? <==> response.Null?
    ensures r.Ok? ==> r.value.Obj? && r.value.fields.Keys == {"totalCount", "pageCount", "pageSize", "startIndex"}
    ensures r.Ok? ==> forall k :: k in r.value.fields ==> r.value.fields[k] == Or(GetOpt(Some(response), k), Num(0))
  {
    if response.Null? then Err(Error("Cannot read properties of null (reading 'totalCount')"))
    else Ok(Obj(map k | k in {"totalCount", "pageCount", "pageSize", "startIndex"} :: Or(GetOpt(Some(response), k), Num(0))))
  }

  /** The success data of a collection search: the items under `key`, `[]`
    * when absent, and the pagination counters, 0 when absent. Reading from
    * a null response throws. */
  function CollectionData(response: Json, key: string): (r: Result<Json, Thrown>)
    requires key != "pagination"
    ensures r.Err? <==> response.Null?
    ensures r.Ok? ==> r.value.Obj? && r.value.fields.Keys == {key, "pagination"}
    ensures r.Ok? ==> r.value.fields[key] == Or(GetOpt(Some(response), "items"), Arr([]))
    ensures r.Ok? ==> r.value.fields["pagination"] == PaginationOf(response).value
  {
    if response.Null? then Err(Error("Cannot read properties of null (reading 'items')"))
    else Ok(Obj(map[key := Or(GetOpt(Some(response), "items"), Arr([])), "pagination" := PaginationOf(response).value]))
  }

  /** What a handler returns once the gateway has answered: the success
    * envelope, or the failure envelope for an error thrown by the request or
    * while shaping the result. */
  function Settle(shaped: Result<Json, Thrown>, details: string): (r: Json)
    ensures shaped.Ok? ==> r == Success(shaped.value)
    ensures shaped.Err? ==> r == Failure(shaped.error, details)
  {
    match shaped
    case Ok(data) => Success(data)
    case Err(e) => Failure(e, details)
  }

  function AndThen(answer: Result<Json, Thrown>, key: string): Result<Json, Thrown>
    requires key != "pagination"
  {
    match answer
    case Ok(response) => CollectionData(response, key)
    case Err(e) => Err(e)
  }

  /** A collection search never fails for a reply that is an object: every
    * missing counter reads as 0 and missing items as `[]`. */
  lemma CollectionDefaults(response: map<string, Json>, key: string)
    requires key != "pagination"
    requires "items" !in response && "totalCount" !in response && "pageCount" !in response
    requires "pageSize" !in response && "startIndex" !in response
    ensures CollectionData(Obj(response), key)
            == Ok(Obj(map[key := Arr([]), "pagination" := Obj(map["totalCount" := Num(0), "pageCount" := Num(0),
                                                                    "pageSize" := Num(0), "startIndex" := Num(0)])]))
  {
    var p := PaginationOf(Obj(response)).value;
    assert p.fields == map["totalCount" := Num(0), "pageCount" := Num(0), "pageSize" := Num(0), "startIndex" := Num(0)];
  }
}
