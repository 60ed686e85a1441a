/** The shared helpers of the service base class: the `eq`/`and` filter
  * builder, pagination and response-field parameters, collection and
  * success envelopes, the error mapping and required-field validation. */
module BaseService {
  import opened Js

  // ---------------------------------------------------------------------
  // Filter clauses

  /** The right-hand side of a filter clause: single-quoted text, bare text
    * (numbers, booleans, ids), or a quoted `datetime` literal. */
  datatype Term = Quoted(text: string) | Bare(text: string) | DateTime(iso: string)

  /** One clause `field op term` of a filter expression. */
  datatype Clause = Clause(field: string, op: string, term: Term)

  function TermText(t: Term): string
  {
    match t
    case Quoted(text) => "'" + text + "'"
    case Bare(text) => text
    case DateTime(iso) => "datetime'" + iso + "'"
  }

  function Render(c: Clause): string
  {
    c.field + " " + c.op + " " + TermText(c.term)
  }

  /** A quoted equality clause reads `field eq 'text'`. */
  lemma RenderQuoted(field: string, text: string)
    ensures Render(Clause(field, "eq", Quoted(text))) == field + " eq '" + text + "'"
  {
    assert " " + "eq" + " " + "'" == " eq '";
    calc {
      Render(Clause(field, "eq", Quoted(text)));
      field + " " + "eq" + " " + ("'" + text + "'");
      { SeqAssoc4(field, " ", "eq", " ", "'", text + "'"); }
      field + (" " + "eq" + " " + "'") + (text + "'");
    }
  }

  /** A date clause reads `field op datetime'iso'`. */
  lemma RenderDate(field: string, op: string, iso: string)
    ensures Render(Clause(field, op, DateTime(iso))) == field + " " + op + " datetime'" + iso + "'"
  {
  }

  lemma SeqAssoc4(a: string, b: string, c: string, d: string, e: string, f: string)
    ensures a + b + c + d + (e + f) == a + (b + c + d + e) + f
  {
  }

  function RenderAll(cs: seq<Clause>): seq<string>
  {
    seq(|cs|, i requires 0 <= i < |cs| => Render(cs[i]))
  }

  /** The clauses joined by `' and '`. */
  function FilterText(cs: seq<Clause>): string
  {
    Join(RenderAll(cs), " and ")
  }

  lemma RenderAllSnoc(cs: seq<Clause>, c: Clause)
    ensures RenderAll(cs + [c]) == RenderAll(cs) + [Render(c)]
  {
  }

  lemma RenderAllAppend(a: seq<Clause>, b: seq<Clause>)
    ensures RenderAll(a + b) == RenderAll(a) + RenderAll(b)
  {
  }

  /** A filter is empty exactly when it has no clauses. */
  lemma {:induction false} FilterTextEmpty(cs: seq<Clause>)
    ensures FilterText(cs) == "" <==> cs == []
  {
    if cs != [] {
      var parts := RenderAll(cs);
      assert parts[0] == cs[0].field + " " + cs[0].op + " " + TermText(cs[0].term);
      assert |parts[0]| > 0;
      if |parts| > 1 {
        assert Join(parts, " and ") == parts[0] + " and " + Join(parts[1..], " and ");
      }
    }
  }

  // ---------------------------------------------------------------------
  // buildFilter

  /** A value of the filter record, by its JavaScript type. */
  datatype FieldValue =
    | UndefinedValue
    | NullValue
    | StringValue(s: string)
    | NumberValue(n: JsNumber)
    | BooleanValue(b: bool)
    | DateValue(iso: string)
    | OtherValue

  /** One own entry of the filter record, in enumeration order. */
  datatype Entry = Entry(key: string, value: FieldValue)

  predicate Qualifies(v: FieldValue)
  {
    v.StringValue? || v.NumberValue? || v.BooleanValue? || v.DateValue?
  }

  function BoolText(b: bool): string
  {
    if b then "true" else "false"
  }

  /** The clause an entry contributes, if any. */
  function EntryClause(e: Entry): (c: Option<Clause>)
    ensures c.Some? <==> Qualifies(e.value)
    ensures c.Some? ==> c.value.field == e.key && c.value.op == "eq"
    ensures e.value.StringValue? ==> c.value.term == Quoted(e.value.s)
    ensures e.value.NumberValue? ==> c.value.term == Bare(e.value.n.ToString())
    ensures e.value.BooleanValue? ==> c.value.term == Bare(BoolText(e.value.b))
    ensures e.value.DateValue? ==> c.value.term == DateTime(e.value.iso)
  {
    match e.value
    case StringValue(s) => Some(Clause(e.key, "eq", Quoted(s)))
    case NumberValue(n) => Some(Clause(e.key, "eq", Bare(n.ToString())))
    case BooleanValue(b) => Some(Clause(e.key, "eq", Bare(BoolText(b))))
    case DateValue(iso) => Some(Clause(e.key, "eq", DateTime(iso)))
    case _ => None
  }

  function EntryClauses(e: Entry): seq<Clause>
  {
    match EntryClause(e)
    case Some(c) => [c]
    case None => []
  }

  /** The clauses of a filter record, entry by entry. */
  function Clauses(entries: seq<Entry>): seq<Clause>
  {
    if entries == [] then []
    else Clauses(entries[..|entries| - 1]) + EntryClauses(entries[|entries| - 1])
  }

  /** Clauses are produced entry by entry, in entry order. */
  lemma {:induction false} ClausesAppend(a: seq<Entry>, b: seq<Entry>)
    ensures Clauses(a + b) == Clauses(a) + Clauses(b)
    decreases |b|
  {
    if b == [] {
      assert a + b == a;
    } else {
      var b' := b[..|b| - 1];
      assert (a + b)[..|a + b| - 1] == a + b';
      assert (a + b)[|a + b| - 1] == b[|b| - 1];
      ClausesAppend(a, b');
    }
  }

  /** An entry alone gives one clause when its value qualifies and none otherwise. */
  lemma SingleEntryClauses(e: Entry)
    ensures |Clauses([e])| == if Qualifies(e.value) then 1 else 0
    ensures Qualifies(e.value) ==> Clauses([e]) == [EntryClause(e).value]
  {
    assert [e][..0] == [];
  }

  /** No clause at all exactly when no entry qualifies. */
  lemma {:induction false} NoClauses(entries: seq<Entry>)
    ensures Clauses(entries) == [] <==> forall i :: 0 <= i < |entries| ==> !Qualifies(entries[i].value)
  {
    if entries != [] {
      var init := entries[..|entries| - 1];
      NoClauses(init);
      assert forall i :: 0 <= i < |init| ==> init[i] == entries[i];
    }
  }

  /** One more entry adds its rendered clause, if it has one, at the end. */
  lemma FilterPartsStep(entries: seq<Entry>, i: nat)
    requires i < |entries|
    ensures RenderAll(Clauses(entries[..i + 1]))
            == RenderAll(Clauses(entries[..i])) + RenderAll(EntryClauses(entries[i]))
  {
    assert entries[..i + 1][..i] == entries[..i];
    RenderAllAppend(Clauses(entries[..i]), EntryClauses(entries[i]));
  }

  /** The text each kind of value renders to. */
  lemma RenderedEntry(e: Entry)
    ensures e.value.StringValue? ==> RenderAll(EntryClauses(e)) == [e.key + " eq '" + e.value.s + "'"]
    ensures e.value.NumberValue? ==> RenderAll(EntryClauses(e)) == [e.key + " eq " + e.value.n.ToString()]
    ensures e.value.BooleanValue? ==> RenderAll(EntryClauses(e)) == [e.key + " eq " + BoolText(e.value.b)]
    ensures e.value.DateValue? ==> RenderAll(EntryClauses(e)) == [e.key + " eq datetime'" + e.value.iso + "'"]
    ensures !Qualifies(e.value) ==> RenderAll(EntryClauses(e)) == []
  {
    var k := e.key;
    assert k + " " + "eq" + " " == k + " eq ";
    match e.value
    case StringValue(s) =>
      assert k + " eq " + ("'" + s + "'") == k + " eq '" + s + "'";
    case DateValue(iso) =>
      assert k + " eq " + ("datetime'" + iso + "'") == k + " eq datetime'" + iso + "'";
    case _ =>
  }

  /** `buildFilter(filters)`. */
  method BuildFilter(entries: seq<Entry>) returns (filter: string)
    ensures filter == FilterText(Clauses(entries))
    ensures filter == "" <==> forall i :: 0 <= i < |entries| ==> !Qualifies(entries[i].value)
  {
    var filterParts: seq<string> := [];
    var i := 0;
    while i < |entries|
      invariant 0 <= i <= |entries|
      invariant filterParts == RenderAll(Clauses(entries[..i]))
    {
      var key, value := entries[i].key, entries[i].value;
      FilterPartsStep(entries, i);
      RenderedEntry(entries[i]);
      match value {
        case StringValue(s) =>
          filterParts := filterParts + [key + " eq '" + s + "'"];
        case NumberValue(n) =>
          filterParts := filterParts + [key + " eq " + n.ToString()];
        case BooleanValue(b) =>
          filterParts := filterParts + [key + " eq " + BoolText(b)];
        case DateValue(iso) =>
          filterParts := filterParts + [key + " eq datetime'" + iso + "'"];
        case _ =>
      }
      i := i + 1;
    }
    assert entries[..i] == entries;
    filter := Join(filterParts, " and ");
    NoClauses(entries);
    FilterTextEmpty(Clauses(entries));
  }

  // ---------------------------------------------------------------------
  // Parameters and envelopes

  datatype Pagination = Pagination(startIndex: int, pageSize: int)

  /** `buildPagination(startIndex = 0, pageSize = 20)`; an omitted argument
    * is `None`. */
  function BuildPagination(startIndex: Option<int>, pageSize: Option<int>): (p: Pagination)
    ensures startIndex.None? ==> p.startIndex == 0
    ensures pageSize.None? ==> p.pageSize == 20
    ensures startIndex.Some? ==> p.startIndex == startIndex.value
    ensures pageSize.Some? ==> p.pageSize == pageSize.value
  {
    Pagination(startIndex.GetOr(0), pageSize.GetOr(20))
  }

  /** `buildResponseFields(fields)`: the names joined by commas. */
  function BuildResponseFields(fields: seq<string>): (r: string)
    ensures fields == [] ==> r == ""
    ensures |fields| == 1 ==> r == fields[0]
    ensures |fields| >= 1 && (forall i :: 0 <= i < |fields| ==> ',' !in fields[i]) ==> multiset(r)[','] == |fields| - 1
  {
    JoinSeparatorCount(fields, ',');
    Join(fields, ",")
  }

  /** Splitting the response-fields parameter at its commas gives back the
    * field names, as long as none of them contains a comma. */
  lemma ResponseFieldsRoundTrip(fields: seq<string>)
    requires |fields| >= 1
    requires forall i :: 0 <= i < |fields| ==> ',' !in fields[i]
    ensures Split(BuildResponseFields(fields), ',') == fields
  {
    SplitJoin(fields, ',');
  }

  const PaginationFields := ["totalCount", "pageCount", "pageSize", "startIndex"]

  /** `formatCollectionResponse(response, dataKey = 'items')`. */
  function FormatCollectionResponse(response: map<string, Json>, dataKey: Option<string>): (r: map<string, Json>)
    ensures r.Keys == {dataKey.GetOr("items"), "pagination"}
    ensures dataKey.GetOr("items") != "pagination" ==>
              r[dataKey.GetOr("items")] == Or(Lookup(response, "items"), Arr([]))
    ensures r["pagination"].Obj? && r["pagination"].fields.Keys == {"totalCount", "pageCount", "pageSize", "startIndex"}
    ensures forall k :: k in PaginationFields ==>
              r["pagination"].fields[k] == (if Truthy(Lookup(response, k)) then response[k] else Num(0))
  {
    var pagination := map k | k in PaginationFields :: Or(Lookup(response, k), Num(0));
    map[dataKey.GetOr("items") := Or(Lookup(response, "items"), Arr([]))]["pagination" := Obj(pagination)]
  }

  /** `formatSuccessResponse(data, message?)`. */
  function FormatSuccessResponse(data: Json, message: Option<string>): (r: map<string, Json>)
    ensures "success" in r && r["success"] == Bool(true)
    ensures "data" in r && r["data"] == data
    ensures "message" in r <==> Filled(message)
    ensures "message" in r ==> r["message"] == Str(message.value)
    ensures r.Keys <= {"success", "data", "message"}
  {
    var response := map["success" := Bool(true), "data" := data];
    if Filled(message) then response["message" := Str(message.value)] else response
  }

  // ---------------------------------------------------------------------
  // validateRequired

  /** `params[name]` is undefined, null or the empty string. */
  predicate Absent(params: map<string, Json>, name: string)
  {
    name !in params || params[name] == Null || params[name] == Str("")
  }

  /** The required names that are absent, in the given order. */
  function Missing(params: map<string, Json>, required: seq<string>): (missing: seq<string>)
    ensures |missing| <= |required|
    ensures forall n :: n in missing <==> n in required && Absent(params, n)
  {
    if required == [] then []
    else (if Absent(params, required[0]) then [required[0]] else []) + Missing(params, required[1..])
  }

  /** The absent names keep their relative order: the list of missing names
    * picks from the required list from left to right. */
  lemma {:induction false} MissingKeepsOrder(params: map<string, Json>, required: seq<string>, extra: seq<string>)
    ensures Missing(params, required + extra) == Missing(params, required) + Missing(params, extra)
  {
    if required == [] {
      assert required + extra == extra;
    } else {
      assert (required + extra)[0] == required[0];
      assert (required + extra)[1..] == required[1..] + extra;
      MissingKeepsOrder(params, required[1..], extra);
    }
  }

  const MissingPrefix := "Missing required parameters: "

  /** `validateRequired(params, required)`. */
  function ValidateRequired(params: map<string, Json>, required: seq<string>): (r: Result<(), Thrown>)
    ensures r.Ok? <==> forall n :: n in required ==> !Absent(params, n)
    ensures r.Err? ==> r.error == Error(MissingPrefix + Join(Missing(params, required), ", "))
  {
    var missing := Missing(params, required);
    assert |missing| > 0 ==> missing[0] in missing;
    if |missing| > 0 then Err(Error(MissingPrefix + Join(missing, ", "))) else Ok(())
  }

  /** Zero and false are present values. */
  lemma FalsyButPresent(params: map<string, Json>, name: string)
    requires name in params && (params[name] == Num(0) || params[name] == Bool(false))
    ensures ValidateRequired(params, [name]).Ok?
  {
  }

  // ---------------------------------------------------------------------
  // handleError

  /** The `{ success: false, error, details }` record. */
  datatype ErrorReport = ErrorReport(success: bool, error: string, details: Json)

  /** `data?.message || data?.errorMessage || fallback`. */
  function ReplyDetails(data: Json, fallback: Json): Json
  {
    Or(GetOpt(Some(data), "message"), Or(GetOpt(Some(data), "errorMessage"), fallback))
  }

  /** `handleError(error, operation)`. A thrown `null` or `undefined` makes
    * the `error.isAxiosError` test throw a TypeError before any report is
    * built. */
  method HandleError(error: Thrown, operation: string) returns (r: Result<ErrorReport, Thrown>)
    ensures r.Err? <==> error.Nullish?
    ensures error.Nullish? ==>
              r.error == Error("Cannot read properties of " + (if error.isUndefined then "undefined" else "null")
                               + " (reading 'isAxiosError')")
    ensures r.Ok? ==> !r.value.success
    ensures error.HttpError? ==> var status, data, report := error.reply.status, error.reply.body, r.value;
      && (status == 400 ==> report.error == "Bad request - invalid parameters"
                            && report.details == ReplyDetails(data, Str("Failed to " + ToLowerAscii(operation))))
      && (status == 401 ==> report.error == "Unauthorized - authentication failed"
                            && report.details == Str("Please check your API credentials"))
      && (status == 403 ==> report.error == "Forbidden - insufficient permissions"
                            && report.details == Str("Your account does not have permission for this operation"))
      && (status == 404 ==> report.error == "Resource not found"
                            && report.details == ReplyDetails(data, Str("The requested resource was not found")))
      && (status == 429 ==> report.error == "Rate limit exceeded"
                            && report.details == Str("Too many requests - please try again later"))
      && (status == 500 ==> report.error == "Internal server error"
                            && report.details == Str("A server error occurred - please try again later"))
      && (status !in {400, 401, 403, 404, 429, 500} ==>
            report.error == "HTTP " + IntToString(status) + " error"
            && report.details == ReplyDetails(data, Str("Failed to " + ToLowerAscii(operation))))
    ensures error.NetworkError? ==> r.value.error == "Network error"
                                    && r.value.details == Str("Unable to connect to Kibo Commerce API")
    ensures !error.HttpError? && !error.NetworkError? && !error.Nullish? ==>
              r.value.error == error.MessageOr("Unknown error occurred")
              && r.value.details == Str("Failed to " + ToLowerAscii(operation))
  {
    if error.Nullish? {
      var name := if error.isUndefined then "undefined" else "null";
      return Err(Error("Cannot read properties of " + name + " (reading 'isAxiosError')"));
    }
    var errorMessage := "Unknown error occurred";
    var details := Str("Failed to " + ToLowerAscii(operation));
    if error.IsError() {
      errorMessage := error.Message();
    }
    match error {
      case HttpError(reply) =>
        var status, data := reply.status, reply.body;
        if status == 400 {
          errorMessage := "Bad request - invalid parameters";
          details := ReplyDetails(data, details);
        } else if status == 401 {
          errorMessage := "Unauthorized - authentication failed";
          details := Str("Please check your API credentials");
        } else if status == 403 {
          errorMessage := "Forbidden - insufficient permissions";
          details := Str("Your account does not have permission for this operation");
        } else if status == 404 {
          errorMessage := "Resource not found";
          details := ReplyDetails(data, Str("The requested resource was not found"));
        } else if status == 429 {
          errorMessage := "Rate limit exceeded";
          details := Str("Too many requests - please try again later");
        } else if status == 500 {
          errorMessage := "Internal server error";
          details := Str("A server error occurred - please try again later");
        } else {
          errorMessage := "HTTP " + IntToString(status) + " error";
          details := ReplyDetails(data, details);
        }
      case NetworkError(_) =>
        errorMessage := "Network error";
        details := Str("Unable to connect to Kibo Commerce API");
      case _ =>
    }
    r := Ok(ErrorReport(false, errorMessage, details));
  }
}
