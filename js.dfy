/** The JavaScript runtime behaviour the service relies on: optional values,
  * JSON values, thrown errors, and the number and string conversions the
  * source performs with template literals, `join`, `parseInt` and
  * `encodeURIComponent`. */
module Js {

  // ---------------------------------------------------------------------
  // Optional values and results

  /** A value that may be `undefined`. */
  datatype Option<+T> = None | Some(value: T) {
    function GetOr(default: T): T { if Some? then value else default }
  }

  /** A computation that returns a value or throws. */
  datatype Result<+T, +E> = Ok(value: T) | Err(error: E) {
    predicate IsFailure() { Err? }
    function PropagateFailure<U>(): Result<U, E> requires Err? { Err(error) }
    function Extract(): T requires Ok? { value }
  }

  /** JavaScript truthiness of an optional string: `undefined` and `''` are falsy. */
  predicate Filled(s: Option<string>) { s.Some? && s.value != "" }

  // ---------------------------------------------------------------------
  // Numbers as `parseInt` produces them

  /** An integral JavaScript number, or NaN. */
  datatype JsNumber = Finite(n: int) | NaN {
    /** Truthiness: 0 and NaN are falsy. */
    predicate Truthy() { Finite? && n != 0 }
    /** `Number.prototype.toString()`. */
    function ToString(): string { if Finite? then IntToString(n) else "NaN" }
  }

  function DigitChar(d: nat): char
    requires d < 10
  {
    ('0' as int + d) as char
  }

  predicate IsDecimalDigit(c: char) { '0' <= c <= '9' }

  /** Decimal notation of a natural number, without leading zeros. */
  function NatToString(n: nat): (s: string)
    ensures |s| >= 1
    ensures forall i :: 0 <= i < |s| ==> IsDecimalDigit(s[i])
    ensures n > 0 ==> s[0] != '0'
    ensures n < 10 <==> |s| == 1
  {
    if n < 10 then [DigitChar(n)] else NatToString(n / 10) + [DigitChar(n % 10)]
  }

  /** Decimal notation of an integer, as a template literal prints it. */
  function IntToString(i: int): (s: string)
    ensures |s| >= 1
    ensures i < 0 <==> s[0] == '-'
  {
    if i < 0 then "-" + NatToString(-i) else NatToString(i)
  }

  /** The value of a digit character in radixes up to 36 (36 for a non-digit). */
  function DigitValue(c: char): (v: nat)
    ensures v <= 36
  {
    if '0' <= c <= '9' then c as int - '0' as int
    else if 'a' <= c <= 'z' then c as int - 'a' as int + 10
    else if 'A' <= c <= 'Z' then c as int - 'A' as int + 10
    else 36
  }

  /** The longest prefix of `s` made of digits of the given radix. */
  function LeadingDigits(s: string, radix: nat): (ds: string)
    ensures |ds| <= |s| && ds == s[..|ds|]
    ensures forall i :: 0 <= i < |ds| ==> DigitValue(ds[i]) < radix
    ensures |ds| < |s| ==> DigitValue(s[|ds|]) >= radix
  {
    if s == [] || DigitValue(s[0]) >= radix then "" else [s[0]] + LeadingDigits(s[1..], radix)
  }

  /** The value of a digit string, most significant digit first. */
  function DigitsValue(ds: string, radix: nat): nat
  {
    if ds == [] then 0
    else DigitsValue(ds[..|ds| - 1], radix) * radix + (if DigitValue(ds[|ds| - 1]) < radix then DigitValue(ds[|ds| - 1]) else 0)
  }

  /** ECMAScript white space and line terminators, which `parseInt` skips. */
  predicate IsJsSpace(c: char)
  {
    c == '\t' || c == '\n' || c == '\U{000B}' || c == '\U{000C}' || c == '\r' || c == ' ' ||
    c == '\U{00A0}' || c == '\U{1680}' || ('\U{2000}' <= c <= '\U{200A}') ||
    c == '\U{2028}' || c == '\U{2029}' || c == '\U{202F}' || c == '\U{205F}' ||
    c == '\U{3000}' || c == '\U{FEFF}'
  }

  function TrimStart(s: string): (t: string)
    ensures |t| <= |s| && t == s[|s| - |t|..]
    ensures t != [] ==> !IsJsSpace(t[0])
  {
    if s != [] && IsJsSpace(s[0]) then TrimStart(s[1..]) else s
  }

  /** `parseInt(s)` without a radix argument: leading white space, an optional
    * sign, a `0x` prefix selecting radix 16, then the longest digit prefix. */
  function ParseInt(s: string): JsNumber
  {
    var t := TrimStart(s);
    var negative := |t| > 0 && t[0] == '-';
    var unsigned := if |t| > 0 && (t[0] == '-' || t[0] == '+') then t[1..] else t;
    ParseUnsigned(unsigned, negative)
  }

  /** The digits after the sign: a `0x` prefix selects radix 16, then the
    * longest digit prefix is read, and no digit at all gives NaN. */
  function ParseUnsigned(unsigned: string, negative: bool): JsNumber
  {
    var hex := |unsigned| >= 2 && unsigned[0] == '0' && (unsigned[1] == 'x' || unsigned[1] == 'X');
    var radix := if hex then 16 else 10;
    var ds := LeadingDigits(if hex then unsigned[2..] else unsigned, radix);
    var magnitude: int := DigitsValue(ds, radix);
    if ds == [] then NaN else Finite(if negative then -magnitude else magnitude)
  }

  lemma {:induction false} AllDigitsAreLeading(s: string)
    requires forall i :: 0 <= i < |s| ==> IsDecimalDigit(s[i])
    ensures LeadingDigits(s, 10) == s
  {
    if s != [] {
      AllDigitsAreLeading(s[1..]);
    }
  }

  lemma {:induction false} DigitsValueOfNatToString(n: nat)
    ensures DigitsValue(NatToString(n), 10) == n
  {
    var s := NatToString(n);
    if n < 10 {
      assert s[..|s| - 1] == [];
    } else {
      var prefix := NatToString(n / 10);
      assert s[..|s| - 1] == prefix;
      DigitsValueOfNatToString(n / 10);
    }
  }

  /** `parseInt` reads back every integer that `toString` prints. */
  lemma ParseIntRoundTrip(i: int)
    ensures ParseInt(IntToString(i)) == Finite(i)
  {
    var n: nat := if i < 0 then -i else i;
    var digits := NatToString(n);
    var sign := if i < 0 then "-" else "";
    assert IntToString(i) == sign + digits;
    assert IsDecimalDigit(digits[0]);
    assert |digits| >= 2 ==> IsDecimalDigit(digits[1]);
    AllDigitsAreLeading(digits);
    ParseSignedDigits(sign, digits);
    DigitsValueOfNatToString(n);
  }

  /** An optional minus sign followed by decimal digits, none of them
    * read as a hexadecimal prefix, parses to their value, negated for the
    * sign. */
  lemma ParseSignedDigits(sign: string, digits: string)
    requires sign == "" || sign == "-"
    requires |digits| >= 1 && IsDecimalDigit(digits[0])
    requires |digits| >= 2 ==> IsDecimalDigit(digits[1])
    requires LeadingDigits(digits, 10) == digits
    ensures ParseInt(sign + digits) == Finite(if sign == "-" then -(DigitsValue(digits, 10) as int) else DigitsValue(digits, 10))
  {
    var s := sign + digits;
    assert s[0] == '-' || IsDecimalDigit(s[0]);
    SignedDigitsUntrimmed(s);
    var unsigned := if s[0] == '-' || s[0] == '+' then s[1..] else s;
    assert unsigned == digits by {
      if sign == "-" {
        assert s[1..] == digits;
      } else {
        assert s == digits;
      }
    }
    assert s[0] == '-' <==> sign == "-";
    assert ParseInt(s) == ParseUnsigned(digits, sign == "-");
    ParseDecimal(digits, sign == "-");
  }

  lemma ParseDecimal(digits: string, negative: bool)
    requires |digits| >= 1
    requires |digits| >= 2 ==> IsDecimalDigit(digits[1])
    requires LeadingDigits(digits, 10) == digits
    ensures ParseUnsigned(digits, negative) == Finite(if negative then -(DigitsValue(digits, 10) as int) else DigitsValue(digits, 10))
  {
  }

  /** A number's text starts with a sign or a digit, which `parseInt` does
    * not skip. */
  lemma SignedDigitsUntrimmed(s: string)
    requires s != [] && (s[0] == '-' || IsDecimalDigit(s[0]))
    ensures TrimStart(s) == s
  {
  }

  // ---------------------------------------------------------------------
  // Strings

  /** `parts.join(sep)`. */
  function Join(parts: seq<string>, sep: string): string
  {
    if |parts| == 0 then ""
    else if |parts| == 1 then parts[0]
    else parts[0] + sep + Join(parts[1..], sep)
  }

  /** Appending one more part appends the separator and that part. */
  lemma {:induction false} JoinSnoc(parts: seq<string>, last: string, sep: string)
    requires parts != []
    ensures Join(parts + [last], sep) == Join(parts, sep) + sep + last
  {
    if |parts| == 1 {
      assert parts + [last] == [parts[0], last];
    } else {
      assert (parts + [last])[1..] == parts[1..] + [last];
      JoinSnoc(parts[1..], last, sep);
    }
  }

  /** Joining parts that do not contain the separator puts exactly one
    * separator between each two of them. */
  lemma {:induction false} JoinSeparatorCount(parts: seq<string>, sep: char)
    ensures |parts| >= 1 && (forall i :: 0 <= i < |parts| ==> sep !in parts[i]) ==>
              multiset(Join(parts, [sep]))[sep] == |parts| - 1
  {
    if |parts| > 1 && forall i :: 0 <= i < |parts| ==> sep !in parts[i] {
      JoinSeparatorCount(parts[1..], sep);
      assert sep !in parts[0];
      assert Join(parts, [sep]) == parts[0] + [sep] + Join(parts[1..], [sep]);
      assert multiset(parts[0] + [sep] + Join(parts[1..], [sep]))
             == multiset(parts[0]) + multiset([sep]) + multiset(Join(parts[1..], [sep]));
    }
  }

  /** `s.split(sep)` for a one-character separator. */
  function Split(s: string, sep: char): (parts: seq<string>)
    ensures |parts| >= 1
  {
    if s == [] then [""]
    else
      var rest := Split(s[1..], sep);
      if s[0] == sep then [""] + rest else [[s[0]] + rest[0]] + rest[1..]
  }

  lemma {:induction false} SplitAfterSeparatorFree(a: string, tail: string, sep: char)
    requires sep !in a
    ensures Split(a + tail, sep) == [a + Split(tail, sep)[0]] + Split(tail, sep)[1..]
  {
    if a != [] {
      assert (a + tail)[1..] == a[1..] + tail;
      assert (a + tail)[0] == a[0] != sep;
      SplitAfterSeparatorFree(a[1..], tail, sep);
      var rest := Split(a[1..] + tail, sep);
      assert Split(a + tail, sep) == [[a[0]] + rest[0]] + rest[1..];
      assert rest[0] == a[1..] + Split(tail, sep)[0];
      assert rest[1..] == Split(tail, sep)[1..];
      assert [a[0]] + rest[0] == a + Split(tail, sep)[0];
    } else {
      assert a + tail == tail;
      assert a + Split(tail, sep)[0] == Split(tail, sep)[0];
    }
  }

  /** Splitting a join at its separator gives back the parts, provided no
    * part contains the separator. */
  lemma {:induction false} SplitJoin(parts: seq<string>, sep: char)
    requires |parts| >= 1
    requires forall i :: 0 <= i < |parts| ==> sep !in parts[i]
    ensures Split(Join(parts, [sep]), sep) == parts
  {
    if |parts| == 1 {
      SplitAfterSeparatorFree(parts[0], "", sep);
      assert parts[0] + "" == parts[0];
    } else {
      var rest := Join(parts[1..], [sep]);
      SplitJoin(parts[1..], sep);
      assert Join(parts, [sep]) == parts[0] + ([sep] + rest);
      SplitAfterSeparatorFree(parts[0], [sep] + rest, sep);
      assert ([sep] + rest)[1..] == rest;
      assert Split([sep] + rest, sep) == [""] + parts[1..];
      assert parts[0] + "" == parts[0];
      assert parts == [parts[0]] + parts[1..];
    }
  }

  predicate StartsWith(s: string, prefix: string)
  {
    |prefix| <= |s| && s[..|prefix|] == prefix
  }

  /** `s.includes(sub)`. */
  predicate Contains(s: string, sub: string)
    decreases |s|
  {
    StartsWith(s, sub) || (s != [] && Contains(s[1..], sub))
  }

  /** A string contains whatever it has at any offset. */
  lemma {:induction false} ContainsInside(a: string, sub: string, b: string)
    ensures Contains(a + sub + b, sub)
  {
    if a == [] {
      assert (a + sub + b)[..|sub|] == sub;
    } else {
      assert (a + sub + b)[1..] == a[1..] + sub + b;
      ContainsInside(a[1..], sub, b);
    }
  }

  /** `s.toLowerCase()` on the ASCII letters. */
  function ToLowerAscii(s: string): (t: string)
    ensures |t| == |s|
    ensures forall i :: 0 <= i < |s| ==> !('A' <= t[i] <= 'Z')
    ensures forall i :: 0 <= i < |s| ==> !('A' <= s[i] <= 'Z') ==> t[i] == s[i]
  {
    if s == [] then ""
    else [if 'A' <= s[0] <= 'Z' then (s[0] as int + 32) as char else s[0]] + ToLowerAscii(s[1..])
  }

  // ---------------------------------------------------------------------
  // encodeURIComponent

  /** The characters `encodeURIComponent` leaves as they are. */
  predicate Unreserved(c: char)
  {
    ('A' <= c <= 'Z') || ('a' <= c <= 'z') || ('0' <= c <= '9') ||
    c == '-' || c == '_' || c == '.' || c == '!' || c == '~' || c == '*' ||
    c == '\'' || c == '(' || c == ')'
  }

  function HexDigit(d: nat): (c: char)
    requires d < 16
    ensures ('0' <= c <= '9') || ('A' <= c <= 'F')
  {
    if d < 10 then ('0' as int + d) as char else ('A' as int + d - 10) as char
  }

  /** The UTF-8 bytes of a code point. */
  function Utf8(cp: nat): (bytes: seq<nat>)
    ensures 1 <= |bytes| <= 4
    ensures forall i :: 0 <= i < |bytes| ==> bytes[i] < 256
  {
    if cp < 0x80 then [cp]
    else if cp < 0x800 then [0xC0 + cp / 0x40, 0x80 + cp % 0x40]
    else if cp < 0x10000 then [0xE0 + cp / 0x1000, 0x80 + (cp / 0x40) % 0x40, 0x80 + cp % 0x40]
    else [0xF0 + (cp / 0x40000) % 8, 0x80 + (cp / 0x1000) % 0x40, 0x80 + (cp / 0x40) % 0x40, 0x80 + cp % 0x40]
  }

  function PercentBytes(bytes: seq<nat>): string
    requires forall i :: 0 <= i < |bytes| ==> bytes[i] < 256
  {
    if bytes == [] then ""
    else ['%', HexDigit(bytes[0] / 16), HexDigit(bytes[0] % 16)] + PercentBytes(bytes[1..])
  }

  function EncodeChar(c: char): string
  {
    if Unreserved(c) then [c] else PercentBytes(Utf8(c as int))
  }

  /** `encodeURIComponent(s)`: unreserved characters are kept, every other
    * character becomes the percent-escapes of its UTF-8 bytes. */
  function EncodeURIComponent(s: string): string
  {
    if s == [] then "" else EncodeChar(s[0]) + EncodeURIComponent(s[1..])
  }

  /** The characters an encoded component may contain. */
  predicate UrlSafe(c: char)
  {
    Unreserved(c) || c == '%'
  }

  lemma {:induction false} PercentBytesUrlSafe(bytes: seq<nat>)
    requires forall i :: 0 <= i < |bytes| ==> bytes[i] < 256
    ensures forall i :: 0 <= i < |PercentBytes(bytes)| ==> UrlSafe(PercentBytes(bytes)[i])
  {
    if bytes != [] {
      PercentBytesUrlSafe(bytes[1..]);
    }
  }

  /** An encoded component never contains a path separator, a query or a
    * fragment delimiter: it stays one path segment. */
  lemma {:induction false} EncodedIsUrlSafe(s: string)
    ensures forall i :: 0 <= i < |EncodeURIComponent(s)| ==> UrlSafe(EncodeURIComponent(s)[i])
  {
    if s != [] {
      if !Unreserved(s[0]) {
        PercentBytesUrlSafe(Utf8(s[0] as int));
      }
      EncodedIsUrlSafe(s[1..]);
    }
  }

  /** A component made only of unreserved characters is left unchanged. */
  lemma {:induction false} EncodeUnreservedIdentity(s: string)
    requires forall i :: 0 <= i < |s| ==> Unreserved(s[i])
    ensures EncodeURIComponent(s) == s
  {
    if s != [] {
      EncodeUnreservedIdentity(s[1..]);
    }
  }

  // ---------------------------------------------------------------------
  // JSON values

  /** A value as JSON (or a JavaScript object literal) holds it. */
  datatype Json =
    | Null
    | Bool(b: bool)
    | Num(n: int)
    | Str(s: string)
    | Arr(items: seq<Json>)
    | Obj(fields: map<string, Json>)

  /** Truthiness of a value that may be `undefined` (None). */
  predicate Truthy(v: Option<Json>)
  {
    match v
    case None => false
    case Some(Null) => false
    case Some(Bool(b)) => b
    case Some(Num(n)) => n != 0
    case Some(Str(s)) => s != ""
    case Some(_) => true
  }

  /** `v || fallback`. */
  function Or(v: Option<Json>, fallback: Json): (r: Json)
    ensures Truthy(v) ==> r == v.value
    ensures !Truthy(v) ==> r == fallback
  {
    if Truthy(v) then v.value else fallback
  }

  /** `a && b`: the first operand when it is falsy, else the second. */
  function And(a: Option<Json>, b: Option<Json>): Option<Json>
  {
    if Truthy(a) then b else a
  }

  /** An own property of an object, `undefined` when absent. */
  function Lookup(m: map<string, Json>, key: string): Option<Json>
  {
    if key in m then Some(m[key]) else None
  }

  /** Property access `v.key`: throws a TypeError on null, is `undefined` on
    * other primitives and on arrays. */
  function Get(v: Json, key: string): (r: Result<Option<Json>, Thrown>)
    ensures v.Null? <==> r.Err?
    ensures v.Obj? ==> r == Ok(Lookup(v.fields, key))
  {
    match v
    case Null => Err(Error("Cannot read properties of null (reading '" + key + "')"))
    case Obj(m) => Ok(Lookup(m, key))
    case _ => Ok(None)
  }

  /** Optional chaining `v?.key`, with `undefined` for a missing value. */
  function GetOpt(v: Option<Json>, key: string): Option<Json>
  {
    if v.Some? && v.value.Obj? then Lookup(v.value.fields, key) else None
  }

  /** `${v}` in a template literal. */
  function Text(v: Json): string
    decreases v
  {
    match v
    case Null => "null"
    case Bool(b) => if b then "true" else "false"
    case Num(n) => IntToString(n)
    case Str(s) => s
    case Arr(items) => Join(seq(|items|, i requires 0 <= i < |items| => if items[i].Null? then "" else Text(items[i])), ",")
    case Obj(_) => "[object Object]"
  }

  function OptionalText(v: Option<Json>): string
  {
    if v.None? then "undefined" else Text(v.value)
  }

  /** The properties an object spread `{...v}` copies: an object's own
    * properties, and none for `undefined` and `null`. */
  function Spread(v: Option<Json>): (r: map<string, Json>)
    ensures v.Some? && v.value.Obj? ==> r == v.value.fields
    ensures v.None? || v.value.Null? ==> r == map[]
  {
    if v.Some? && v.value.Obj? then v.value.fields else map[]
  }

  /** The elements an array spread `[...v]` produces: an array's items, a
    * string's characters, and a TypeError for anything not iterable;
    * `expr` is the source text the error names. */
  function SpreadItems(v: Json, expr: string): (r: Result<seq<Json>, Thrown>)
    ensures v.Arr? ==> r == Ok(v.items)
    ensures v.Str? ==> r.Ok? && |r.value| == |v.s| && forall i :: 0 <= i < |v.s| ==> r.value[i] == Str([v.s[i]])
    ensures !v.Arr? && !v.Str? ==> r == Err(Error(expr + " is not iterable"))
  {
    match v
    case Arr(items) => Ok(items)
    case Str(s) => Ok(seq(|s|, i requires 0 <= i < |s| => Str([s[i]])))
    case _ => Err(Error(expr + " is not iterable"))
  }

  /** An object literal as `JSON.stringify` writes it: properties whose value
    * is `undefined` are dropped. */
  function Defined(m: map<string, Option<Json>>): (r: map<string, Json>)
    ensures forall k :: k in r <==> k in m && m[k].Some?
    ensures forall k :: k in r ==> r[k] == m[k].value
  {
    map k | k in m && m[k].Some? :: m[k].value
  }

  // ---------------------------------------------------------------------
  // Thrown values

  /** A reply as axios reports it: status code and decoded body. */
  datatype Reply = Reply(status: int, body: Json)

  /** A value a JavaScript `throw` produced. */
  datatype Thrown =
      /** An `Error` (or `TypeError`) with this message. */
    | Error(message: string)
      /** An axios error for a reply whose status is outside 2xx. */
    | HttpError(reply: Reply)
      /** An axios error for a request that got no reply. */
    | NetworkError(reason: string)
      /** A zod validation error for the named argument. */
    | SchemaError(path: string)
      /** An error of the protocol layer with its numeric code. */
    | McpError(code: int, text: string)
      /** A thrown value that is not an `Error` and is neither `null` nor `undefined`. */
    | NonError
      /** A thrown `null`, or `undefined` when `isUndefined`. */
    | Nullish(isUndefined: bool)
  {
    /** `error instanceof Error`. */
    predicate IsError() { !NonError? && !Nullish? }

    /** `error.message`. */
    function Message(): string
      requires IsError()
    {
      match this
      case Error(m) => m
      case HttpError(r) => "Request failed with status code " + IntToString(r.status)
      case NetworkError(m) => m
      case SchemaError(p) => "Invalid input: " + p
      case McpError(code, text) => "MCP error " + IntToString(code) + ": " + text
    }

    /** `error instanceof Error ? error.message : fallback`. */
    function MessageOr(fallback: string): (m: string)
      ensures !IsError() ==> m == fallback
    {
      if IsError() then Message() else fallback
    }
  }
}
