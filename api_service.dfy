/**
 * The HTTP client of the frontend (`ApiService` in services/api.service.ts):
 * how a request is shaped (URL, merged headers), how a non-ok response is
 * turned into one error message, and how the doctor search builds its query.
 *
 * The transport is not modelled: a response is given as its status, the
 * outcome of reading its body as text and the value `response.json()` would
 * give. `JSON.parse` is an oracle `parse` from the body text to a parse
 * outcome, and the `URLSearchParams` serializer is an oracle `encode`.
 */
module ApiService {
  import opened Wrappers
  import opened JsText

  /** A JSON value as `JSON.parse` returns it (numbers restricted to integers). */
  datatype Json =
    | JNull
    | JBool(b: bool)
    | JNumber(n: int)
    | JString(s: string)
    | JArray(items: seq<Json>)
    | JObject(fields: map<string, Json>)

  /** What `JSON.parse(text)` does: throw a SyntaxError, or return a value. */
  datatype ParseOutcome = NotJson | Parsed(value: Json)

  /** JavaScript truthiness of a parsed value: `null`, `false`, `0` and `""` are falsy. */
  predicate Truthy(v: Json) {
    match v
    case JNull => false
    case JBool(b) => b
    case JNumber(n) => n != 0
    case JString(s) => s != ""
    case JArray(_) => true
    case JObject(_) => true
  }

  /**
   * `String(v)`, which is what `new Error(v)` keeps as the message: arrays
   * join their elements with commas, printing `null` elements as nothing.
   */
  function ToJsString(v: Json): string
    decreases v, 1
  {
    match v
    case JNull => "null"
    case JBool(b) => if b then "true" else "false"
    case JNumber(n) => DecimalString(n)
    case JString(s) => s
    case JArray(items) => JoinElements(items, v)
    case JObject(_) => "[object Object]"
  }

  function JoinElements(items: seq<Json>, ghost parent: Json): string
    requires forall i :: 0 <= i < |items| ==> items[i] < parent
    decreases parent, 0, |items|
  {
    if items == [] then ""
    else
      var first := if items[0].JNull? then "" else ToJsString(items[0]);
      if |items| == 1 then first else first + "," + JoinElements(items[1..], parent)
  }

  /**
   * `v.name` for a parsed value other than `null`: an object gives its own
   * field, every other value (string, number, boolean, array) `undefined`.
   */
  function Property(v: Json, name: string): Option<Json> {
    if v.JObject? && name in v.fields then Some(v.fields[name]) else None
  }

  /** `a || fallback` where `a` may be `undefined`: the message it gives. */
  function OrElse(a: Option<Json>, fallback: string): string {
    if a.Some? && Truthy(a.value) then ToJsString(a.value) else fallback
  }

  /** The message used when the body says nothing useful. */
  function DefaultMessage(status: int): (m: string)
    ensures |m| > 20 && m[..20] == "HTTP error! status: "
    ensures m[20..] == DecimalString(status)
  {
    "HTTP error! status: " + DecimalString(status)
  }

  /** Distinct statuses give distinct default messages. */
  lemma DefaultMessageInjective(s1: int, s2: int)
    requires DefaultMessage(s1) == DefaultMessage(s2)
    ensures s1 == s2
  {
    assert DefaultMessage(s1)[20..] == DecimalString(s1);
    assert DefaultMessage(s2)[20..] == DecimalString(s2);
    DecimalStringInjective(s1, s2);
  }

  /** The maximum length of a message taken from a body that is not JSON. */
  const MaxRawMessage: nat := 200

  /** The `catch` branch: the compacted text cut to 200 characters, unless it is empty. */
  function RawTextMessage(rawBody: string, fallback: string): string {
    var compact := Compact(rawBody);
    if compact != "" then Take(compact, MaxRawMessage) else fallback
  }

  /**
   * The message of the error thrown for a non-ok response with status
   * `status` whose body text is `rawBody` (`""` when it could not be read).
   * A body that parses to `null` makes `parsedBody.error` throw inside the
   * `try`, so it takes the `catch` branch like a body that does not parse.
   */
  function ErrorMessage(status: int, rawBody: string, parse: string -> ParseOutcome): (message: string)
    ensures rawBody == "" ==> message == DefaultMessage(status)
  {
    var fallback := DefaultMessage(status);
    if rawBody == "" then fallback
    else
      match parse(rawBody)
      case NotJson => RawTextMessage(rawBody, fallback)
      case Parsed(JNull) => RawTextMessage(rawBody, fallback)
      case Parsed(v) => OrElse(Property(v, "error"), OrElse(Property(v, "message"), fallback))
  }

  /** A parsed object's `error` wins when truthy, then `message`, then the status message. */
  lemma JsonFieldPrecedence(status: int, rawBody: string, parse: string -> ParseOutcome, fields: map<string, Json>)
    requires rawBody != "" && parse(rawBody) == Parsed(JObject(fields))
    ensures ("error" in fields && Truthy(fields["error"]))
      ==> ErrorMessage(status, rawBody, parse) == ToJsString(fields["error"])
    ensures (!("error" in fields && Truthy(fields["error"])) && "message" in fields && Truthy(fields["message"]))
      ==> ErrorMessage(status, rawBody, parse) == ToJsString(fields["message"])
    ensures (!("error" in fields && Truthy(fields["error"])) && !("message" in fields && Truthy(fields["message"])))
      ==> ErrorMessage(status, rawBody, parse) == DefaultMessage(status)
  {
  }

  /** A non-empty string in `error` (or, failing that, in `message`) is the message verbatim. */
  lemma JsonStringFieldVerbatim(status: int, rawBody: string, parse: string -> ParseOutcome, text: string)
    requires rawBody != "" && text != ""
    requires parse(rawBody) == Parsed(JObject(map["error" := JString(text)]))
          || parse(rawBody) == Parsed(JObject(map["message" := JString(text)]))
    ensures ErrorMessage(status, rawBody, parse) == text
  {
  }

  /**
   * A body that parses to anything other than `null` but has no truthy
   * `error` or `message` (such as `{}`, `[]`, a string or a number) gives the
   * status message, not its own text.
   */
  lemma JsonWithoutFieldsGivesDefault(status: int, rawBody: string, parse: string -> ParseOutcome)
    requires rawBody != "" && parse(rawBody).Parsed? && parse(rawBody).value != JNull
    requires var v := parse(rawBody).value;
      !(Property(v, "error").Some? && Truthy(Property(v, "error").value))
      && !(Property(v, "message").Some? && Truthy(Property(v, "message").value))
    ensures ErrorMessage(status, rawBody, parse) == DefaultMessage(status)
  {
  }

  /**
   * A body that is not JSON and not all whitespace gives at most 200
   * characters, a prefix of the compacted body: as long as the compacted body
   * up to 200, single-spaced and trimmed.
   */
  lemma NonJsonGivesCompactedPrefix(status: int, rawBody: string, parse: string -> ParseOutcome)
    requires parse(rawBody) == NotJson && !AllSpace(rawBody)
    ensures var m := ErrorMessage(status, rawBody, parse);
      && |m| == (if |Compact(rawBody)| < MaxRawMessage then |Compact(rawBody)| else MaxRawMessage)
      && m == Compact(rawBody)[..|m|]
      && m != "" && !IsSpace(m[0])
      && SingleSpaced(m)
  {
    var c := Compact(rawBody);
    assert rawBody != "";
    var m := ErrorMessage(status, rawBody, parse);
    assert m == Take(c, MaxRawMessage);
    SingleSpacedSlice(c, 0, |m|);
  }

  /** A body of whitespace only that does not parse (none does) gives the status message. */
  lemma WhitespaceBodyGivesDefault(status: int, rawBody: string, parse: string -> ParseOutcome)
    requires AllSpace(rawBody) && parse(rawBody) == NotJson
    ensures ErrorMessage(status, rawBody, parse) == DefaultMessage(status)
  {
  }

  /** The whitespace RFC 8259 allows around a JSON value. */
  predicate IsJsonSpace(c: char) {
    c == ' ' || c == '\t' || c == '\n' || c == '\r'
  }

  /**
   * The body `null` (with any JSON whitespace around it) parses, but reading
   * its `error` throws inside the `try`: the message is the text `null`.
   */
  lemma NullBodyGivesNullText(status: int, lead: string, trail: string, parse: string -> ParseOutcome)
    requires forall i :: 0 <= i < |lead| ==> IsJsonSpace(lead[i])
    requires forall i :: 0 <= i < |trail| ==> IsJsonSpace(trail[i])
    requires parse(lead + "null" + trail) == Parsed(JNull)
    ensures ErrorMessage(status, lead + "null" + trail, parse) == "null"
  {
    CompactPaddedWord(lead, "null", trail);
  }

  /** The outcome of `response.text()`: its text, or a rejection the client maps to `""`. */
  datatype BodyRead = Text(text: string) | ReadFailed

  function BodyText(b: BodyRead): string {
    if b.Text? then b.text else ""
  }

  /** `response.ok`: a status in the range 200 to 299. */
  predicate IsOk(status: int) {
    200 <= status <= 299
  }

  /** A response: its status, the outcome of reading it as text, and what `response.json()` gives. */
  datatype Response<T> = Response(status: int, body: BodyRead, json: T)

  /**
   * The response half of `ApiService.fetch`: an ok response returns its JSON
   * and never reads an error, any other response throws with the derived
   * message. The result is the returned value or the thrown message.
   */
  function Fetch<T>(response: Response<T>, parse: string -> ParseOutcome): (r: Result<T, string>)
    ensures r.Success? <==> IsOk(response.status)
    ensures r.Success? ==> r.value == response.json
    ensures r.Failure? ==> r.error == ErrorMessage(response.status, BodyText(response.body), parse)
    ensures !IsOk(response.status) && response.body == ReadFailed ==> r == Failure(DefaultMessage(response.status))
  {
    if !IsOk(response.status) then
      Failure(ErrorMessage(response.status, BodyText(response.body), parse))
    else
      Success(response.json)
  }

  const ContentTypeHeader := "Content-Type"
  const JsonContentType := "application/json"

  /** The caller's `RequestInit`: HTTP method, body and headers as a plain record. */
  datatype RequestInit = RequestInit(verb: Option<string>, body: Option<string>, headers: Option<map<string, string>>)

  /** What is handed to the transport. `verb` (the HTTP method) is absent when the caller gave none (a GET). */
  datatype Request = Request(url: string, verb: Option<string>, body: Option<string>, headers: map<string, string>)

  /**
   * `{"Content-Type": "application/json", ...callerHeaders}`: the caller's
   * keys are spread last, so they win.
   */
  function MergeHeaders(caller: map<string, string>): (h: map<string, string>)
    ensures h.Keys == caller.Keys + {ContentTypeHeader}
    ensures h[ContentTypeHeader] == if ContentTypeHeader in caller then caller[ContentTypeHeader] else JsonContentType
    ensures forall k :: k in caller ==> h[k] == caller[k]
  {
    map[ContentTypeHeader := JsonContentType] + caller
  }

  /** The request half of `ApiService.fetch`: the URL is the base URL followed by the endpoint. */
  function PrepareRequest(baseUrl: string, endpoint: string, options: Option<RequestInit>): (r: Request)
    ensures r.url == baseUrl + endpoint && r.url[..|baseUrl|] == baseUrl && r.url[|baseUrl|..] == endpoint
    ensures ContentTypeHeader in r.headers
    ensures options.None? ==> r.verb.None? && r.body.None? && r.headers == map[ContentTypeHeader := JsonContentType]
    ensures options.Some? ==> r.verb == options.value.verb && r.body == options.value.body
    ensures r.headers == MergeHeaders(if options.Some? && options.value.headers.Some? then options.value.headers.value else map[])
  {
    var callerHeaders := if options.Some? && options.value.headers.Some? then options.value.headers.value else map[];
    var verb := if options.Some? then options.value.verb else None;
    var body := if options.Some? then options.value.body else None;
    Request(baseUrl + endpoint, verb, body, MergeHeaders(callerHeaders))
  }

  // ---------------------------------------------------------------------------
  // searchDoctors

  /** The search parameters; each may be left out (`undefined`). */
  datatype DoctorSearchParams = DoctorSearchParams(
    zip: Option<string>,
    specialty: Option<string>,
    city: Option<string>,
    state: Option<string>,
    limit: Option<int>)

  /** A parameter's value before it is tested: a string, a number, or `undefined`. */
  datatype ParamValue = Str(s: string) | Num(n: int) | Undefined

  predicate ParamTruthy(v: ParamValue) {
    match v
    case Str(s) => s != ""
    case Num(n) => n != 0
    case Undefined => false
  }

  /** The string stored for a parameter: the string itself, or `String(limit)`. */
  function ParamString(v: ParamValue): string {
    match v
    case Str(s) => s
    case Num(n) => DecimalString(n)
    case Undefined => ""
  }

  function StrParam(o: Option<string>): ParamValue {
    if o.Some? then Str(o.value) else Undefined
  }

  /** Every parameter under its key, in the order the search tests them. */
  function Candidates(p: DoctorSearchParams): seq<(string, ParamValue)> {
    [ ("zip", StrParam(p.zip)),
      ("specialty", StrParam(p.specialty)),
      ("city", StrParam(p.city)),
      ("state", StrParam(p.state)),
      ("limit", if p.limit.Some? then Num(p.limit.value) else Undefined) ]
  }

  /** The record entry a candidate contributes: one pair if it is truthy, none otherwise. */
  function Entry(key: string, v: ParamValue): seq<(string, string)> {
    if ParamTruthy(v) then [(key, ParamString(v))] else []
  }

  /** The truthy candidates, converted to strings, in their original order. */
  function KeepTruthy(cs: seq<(string, ParamValue)>): (q: seq<(string, string)>)
    ensures |q| <= |cs|
  {
    if cs == [] then [] else Entry(cs[0].0, cs[0].1) + KeepTruthy(cs[1..])
  }

  /** Filtering distributes over concatenation. */
  lemma {:induction false} KeepTruthyAppend(a: seq<(string, ParamValue)>, b: seq<(string, ParamValue)>)
    ensures KeepTruthy(a + b) == KeepTruthy(a) + KeepTruthy(b)
  {
    if a == [] {
      assert a + b == b;
    } else {
      assert (a + b)[0] == a[0];
      assert (a + b)[1..] == a[1..] + b;
      KeepTruthyAppend(a[1..], b);
    }
  }

  /** The five candidates of a search, filtered, one entry after the other. */
  lemma CandidatesQuery(p: DoctorSearchParams)
    ensures KeepTruthy(Candidates(p))
      == Entry("zip", StrParam(p.zip)) + Entry("specialty", StrParam(p.specialty))
       + Entry("city", StrParam(p.city)) + Entry("state", StrParam(p.state))
       + Entry("limit", if p.limit.Some? then Num(p.limit.value) else Undefined)
  {
    var cs := Candidates(p);
    forall i | 0 <= i < 5
      ensures KeepTruthy([cs[i]]) == Entry(cs[i].0, cs[i].1)
    {
      assert [cs[i]][1..] == [];
    }
    assert cs == [cs[0]] + [cs[1]] + [cs[2]] + [cs[3]] + [cs[4]];
    KeepTruthyAppend([cs[0]] + [cs[1]] + [cs[2]] + [cs[3]], [cs[4]]);
    KeepTruthyAppend([cs[0]] + [cs[1]] + [cs[2]], [cs[3]]);
    KeepTruthyAppend([cs[0]] + [cs[1]], [cs[2]]);
    KeepTruthyAppend([cs[0]], [cs[1]]);
  }

  /** The value stored under `key` in a query record, if any (the first one). */
  function Lookup(q: seq<(string, string)>, key: string): Option<string> {
    if q == [] then None else if q[0].0 == key then Some(q[0].1) else Lookup(q[1..], key)
  }

  lemma {:induction false} LookupAppend(a: seq<(string, string)>, b: seq<(string, string)>, key: string)
    ensures Lookup(a + b, key) == if Lookup(a, key).Some? then Lookup(a, key) else Lookup(b, key)
  {
    if a == [] {
      assert a + b == b;
    } else {
      assert (a + b)[0] == a[0];
      assert (a + b)[1..] == a[1..] + b;
      LookupAppend(a[1..], b, key);
    }
  }

  lemma LookupEntry(key: string, v: ParamValue, k: string)
    ensures Lookup(Entry(key, v), k) == if ParamTruthy(v) && key == k then Some(ParamString(v)) else None
  {
    if ParamTruthy(v) {
      assert Entry(key, v)[1..] == [];
    }
  }

  /**
   * The `queryParams` record of `searchDoctors`, filled by one conditional
   * insertion per parameter. Insertion order is the order `URLSearchParams`
   * serializes in, so the record is a sequence of pairs.
   */
  method BuildQueryParams(p: DoctorSearchParams) returns (q: seq<(string, string)>)
    ensures q == KeepTruthy(Candidates(p))
  {
    q := [];
    if p.zip.Some? && p.zip.value != "" {
      q := q + [("zip", p.zip.value)];
    }
    ghost var q0 := q;
    assert q0 == Entry("zip", StrParam(p.zip));
    if p.specialty.Some? && p.specialty.value != "" {
      q := q + [("specialty", p.specialty.value)];
    }
    ghost var q1 := q;
    assert q1 == q0 + Entry("specialty", StrParam(p.specialty));
    if p.city.Some? && p.city.value != "" {
      q := q + [("city", p.city.value)];
    }
    ghost var q2 := q;
    assert q2 == q1 + Entry("city", StrParam(p.city));
    if p.state.Some? && p.state.value != "" {
      q := q + [("state", p.state.value)];
    }
    ghost var q3 := q;
    assert q3 == q2 + Entry("state", StrParam(p.state));
    if p.limit.Some? && p.limit.value != 0 {
      q := q + [("limit", DecimalString(p.limit.value))];
    }
    assert q == q3 + Entry("limit", if p.limit.Some? then Num(p.limit.value) else Undefined);
    CandidatesQuery(p);
  }

  /**
   * Each parameter is in the query exactly when it is truthy, with its string
   * value: so an empty string or a `limit` of 0 is left out.
   */
  lemma QueryHoldsExactlyTruthyParams(p: DoctorSearchParams)
    ensures var q := KeepTruthy(Candidates(p));
      && Lookup(q, "zip") == (if p.zip.Some? && p.zip.value != "" then p.zip else None)
      && Lookup(q, "specialty") == (if p.specialty.Some? && p.specialty.value != "" then p.specialty else None)
      && Lookup(q, "city") == (if p.city.Some? && p.city.value != "" then p.city else None)
      && Lookup(q, "state") == (if p.state.Some? && p.state.value != "" then p.state else None)
      && Lookup(q, "limit") == (if p.limit.Some? && p.limit.value != 0 then Some(DecimalString(p.limit.value)) else None)
  {
    CandidatesQuery(p);
    var e0, e1, e2, e3 := Entry("zip", StrParam(p.zip)), Entry("specialty", StrParam(p.specialty)),
                          Entry("city", StrParam(p.city)), Entry("state", StrParam(p.state));
    var e4 := Entry("limit", if p.limit.Some? then Num(p.limit.value) else Undefined);
    LookupIn(p, e0, e1, e2, e3, e4, "zip");
    LookupIn(p, e0, e1, e2, e3, e4, "specialty");
    LookupIn(p, e0, e1, e2, e3, e4, "city");
    LookupIn(p, e0, e1, e2, e3, e4, "state");
    LookupIn(p, e0, e1, e2, e3, e4, "limit");
  }

  lemma LookupIn(p: DoctorSearchParams, e0: seq<(string, string)>, e1: seq<(string, string)>, e2: seq<(string, string)>,
                 e3: seq<(string, string)>, e4: seq<(string, string)>, k: string)
    requires e0 == Entry("zip", StrParam(p.zip)) && e1 == Entry("specialty", StrParam(p.specialty))
    requires e2 == Entry("city", StrParam(p.city)) && e3 == Entry("state", StrParam(p.state))
    requires e4 == Entry("limit", if p.limit.Some? then Num(p.limit.value) else Undefined)
    ensures Lookup(e0 + e1 + e2 + e3 + e4, k)
      == (if Lookup(e0, k).Some? then Lookup(e0, k)
          else if Lookup(e1, k).Some? then Lookup(e1, k)
          else if Lookup(e2, k).Some? then Lookup(e2, k)
          else if Lookup(e3, k).Some? then Lookup(e3, k)
          else Lookup(e4, k))
    ensures Lookup(e0, k) == if ParamTruthy(StrParam(p.zip)) && k == "zip" then Some(ParamString(StrParam(p.zip))) else None
    ensures Lookup(e1, k) == if ParamTruthy(StrParam(p.specialty)) && k == "specialty" then Some(ParamString(StrParam(p.specialty))) else None
    ensures Lookup(e2, k) == if ParamTruthy(StrParam(p.city)) && k == "city" then Some(ParamString(StrParam(p.city))) else None
    ensures Lookup(e3, k) == if ParamTruthy(StrParam(p.state)) && k == "state" then Some(ParamString(StrParam(p.state))) else None
    ensures var lim := if p.limit.Some? then Num(p.limit.value) else Undefined;
      Lookup(e4, k) == if ParamTruthy(lim) && k == "limit" then Some(ParamString(lim)) else None
  {
    LookupEntry("zip", StrParam(p.zip), k);
    LookupEntry("specialty", StrParam(p.specialty), k);
    LookupEntry("city", StrParam(p.city), k);
    LookupEntry("state", StrParam(p.state), k);
    LookupEntry("limit", if p.limit.Some? then Num(p.limit.value) else Undefined, k);
    LookupAppend(e0 + e1 + e2 + e3, e4, k);
    LookupAppend(e0 + e1 + e2, e3, k);
    LookupAppend(e0 + e1, e2, k);
    LookupAppend(e0, e1, k);
  }

  /** The endpoint searched: `?` and the query are appended only when the query is not empty. */
  function SearchEndpoint(searchPath: string, queryString: string): (endpoint: string)
    ensures |endpoint| >= |searchPath| && endpoint[..|searchPath|] == searchPath
    ensures |endpoint| == |searchPath| <==> queryString == ""
    ensures queryString != "" ==> endpoint[|searchPath|] == '?' && endpoint[|searchPath| + 1..] == queryString
  {
    if queryString != "" then searchPath + "?" + queryString else searchPath
  }

  /**
   * With an encoder that gives the empty string for the empty record only (as
   * `URLSearchParams` does), the endpoint carries a `?` exactly when some
   * parameter is truthy.
   */
  lemma QueryMarkIffSomeParam(searchPath: string, p: DoctorSearchParams, encode: seq<(string, string)> -> string)
    requires var q := KeepTruthy(Candidates(p)); encode(q) == "" <==> q == []
    ensures var endpoint := SearchEndpoint(searchPath, encode(KeepTruthy(Candidates(p))));
      |endpoint| > |searchPath|
      <==> (|| (p.zip.Some? && p.zip.value != "") || (p.specialty.Some? && p.specialty.value != "")
            || (p.city.Some? && p.city.value != "") || (p.state.Some? && p.state.value != "")
            || (p.limit.Some? && p.limit.value != 0))
  {
    CandidatesQuery(p);
  }

  /** The JSON of a search response: `doctors` may be missing. */
  datatype DoctorSearchResponse<D> = DoctorSearchResponse(doctors: Option<seq<D>>)

  /**
   * `searchDoctors`: the request it issues and what it returns or throws. The
   * result is the response's `doctors`, or `[]` when the field is absent.
   */
  method SearchDoctors<D>(baseUrl: string, searchPath: string, p: DoctorSearchParams,
                          encode: seq<(string, string)> -> string, parse: string -> ParseOutcome,
                          response: Response<DoctorSearchResponse<D>>)
    returns (request: Request, result: Result<seq<D>, string>)
    ensures request == PrepareRequest(baseUrl, SearchEndpoint(searchPath, encode(KeepTruthy(Candidates(p)))), None)
    ensures result.Success? <==> IsOk(response.status)
    ensures result.Success? ==> result.value == (if response.json.doctors.Some? then response.json.doctors.value else [])
    ensures result.Failure? ==> result.error == ErrorMessage(response.status, BodyText(response.body), parse)
  {
    var queryParams := BuildQueryParams(p);
    var queryString := encode(queryParams);
    var endpoint := SearchEndpoint(searchPath, queryString);
    request := PrepareRequest(baseUrl, endpoint, None);
    var fetched := Fetch(response, parse);
    if fetched.Failure? {
      result := Failure(fetched.error);
    } else {
      var doctors := fetched.value.doctors;
      result := Success(if doctors.Some? then doctors.value else []);
    }
  }
}
