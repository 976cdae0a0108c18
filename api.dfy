/**
 * Request shaping and response interpretation of the fetch wrapper `apiRequest`,
 * and the table of endpoint helpers `api`. The network call and JSON.parse are
 * inputs: a reply is `None` when fetch itself rejects, and the parse of a body is
 * given alongside that body.
 */
module Api {
  import opened Wrappers
  import Decimal

  predicate StartsWith(s: string, prefix: string) {
    |prefix| <= |s| && s[..|prefix|] == prefix
  }

  /** JavaScript `v || ''` for a possibly missing string. */
  function OrEmpty(v: Option<string>): (s: string)
    ensures v.Some? ==> s == v.value
    ensures v.None? ==> s == ""
  {
    match v
    case Some(x) => x
    case None => ""
  }

  /** `import.meta.env.VITE_API_URL || ''`: the build-time variable, or the empty prefix. */
  function BaseUrl(viteApiUrl: Option<string>): (base: string)
    ensures base == OrEmpty(viteApiUrl)
  {
    if viteApiUrl.Some? && viteApiUrl.value != "" then viteApiUrl.value else ""
  }

  /** An endpoint beginning with `http` is taken as an absolute URL, anything else is prefixed. */
  function ResolveUrl(base: string, endpoint: string): (url: string)
    ensures StartsWith(endpoint, "http") ==> url == endpoint
    ensures !StartsWith(endpoint, "http") ==> url == base + endpoint
  {
    if StartsWith(endpoint, "http") then endpoint else base + endpoint
  }

  /** With an empty or absolute base, resolving a resolved URL changes nothing more. */
  lemma ResolveUrlIdempotent(base: string, endpoint: string)
    requires base == "" || StartsWith(base, "http")
    ensures ResolveUrl(base, ResolveUrl(base, endpoint)) == ResolveUrl(base, endpoint)
  {
  }

  // ---------------------------------------------------------------------------
  // Options records and object spread

  /** A property value of an options object: a string, or a record of strings (headers). */
  datatype OptionValue = Text(text: string) | Fields(fields: map<string, string>)

  /** An options object: its own enumerable properties. */
  type RequestOptions = map<string, OptionValue>

  const CredentialsKey := "credentials"
  const HeadersKey := "headers"
  const MethodKey := "method"
  const BodyKey := "body"
  const ContentTypeHeader := "Content-Type"
  const JsonMediaType := "application/json"
  const IncludeCredentials := "include"

  /** The headers record found under `options.headers`; a missing or non-record value spreads nothing. */
  function CallerHeaders(options: RequestOptions): (h: map<string, string>)
    ensures HeadersKey in options && options[HeadersKey].Fields? ==> h == options[HeadersKey].fields
    ensures !(HeadersKey in options && options[HeadersKey].Fields?) ==> h == map[]
  {
    if HeadersKey in options && options[HeadersKey].Fields? then options[HeadersKey].fields else map[]
  }

  /**
   * The `defaultOptions` object: credentials `include`, and headers made of the JSON
   * content type overridden key by key by the caller's headers.
   */
  function DefaultOptions(options: RequestOptions): (d: RequestOptions)
    ensures d.Keys == {CredentialsKey, HeadersKey}
    ensures d[CredentialsKey] == Text(IncludeCredentials)
    ensures d[HeadersKey].Fields?
    ensures d[HeadersKey].fields.Keys == CallerHeaders(options).Keys + {ContentTypeHeader}
    ensures forall k :: k in CallerHeaders(options) ==> d[HeadersKey].fields[k] == CallerHeaders(options)[k]
    ensures ContentTypeHeader !in CallerHeaders(options) ==> d[HeadersKey].fields[ContentTypeHeader] == JsonMediaType
  {
    map[CredentialsKey := Text(IncludeCredentials),
        HeadersKey := Fields(map[ContentTypeHeader := JsonMediaType] + CallerHeaders(options))]
  }

  /**
   * The options handed to fetch, as written: `{ ...defaultOptions, ...options }`.
   * Every caller property wins over the default of the same name, so a caller
   * `headers` replaces the merged default headers wholesale.
   */
  function MergeOptions(options: RequestOptions): (r: RequestOptions)
    ensures r.Keys == options.Keys + {CredentialsKey, HeadersKey}
    ensures forall k :: k in options ==> r[k] == options[k]
    ensures HeadersKey !in options ==> r[HeadersKey] == Fields(map[ContentTypeHeader := JsonMediaType])
    ensures CredentialsKey !in options ==> r[CredentialsKey] == Text(IncludeCredentials)
  {
    DefaultOptions(options) + options
  }

  /** A caller passing any headers record loses the default JSON content type. */
  lemma MergeOptionsDropsContentType(headers: map<string, string>)
    requires ContentTypeHeader !in headers
    ensures var r := MergeOptions(map[HeadersKey := Fields(headers)]);
      r[HeadersKey].Fields? && ContentTypeHeader !in r[HeadersKey].fields
  {
  }

  /** The counterexample: an Authorization header alone leaves the request with no Content-Type. */
  lemma MergeOptionsDropsContentTypeExample()
    ensures MergeOptions(map[HeadersKey := Fields(map["Authorization" := "Bearer t"])])[HeadersKey]
      == Fields(map["Authorization" := "Bearer t"])
  {
  }

  /**
   * The evidently intended merge: as written, except that the headers are the
   * default headers with the caller's merged in (`{ ...defaultOptions, ...options,
   * headers: defaultOptions.headers }`).
   */
  function MergeOptionsIntended(options: RequestOptions): (r: RequestOptions)
    ensures r.Keys == options.Keys + {CredentialsKey, HeadersKey}
    ensures forall k :: k in options && k != HeadersKey ==> r[k] == options[k]
    ensures CredentialsKey !in options ==> r[CredentialsKey] == Text(IncludeCredentials)
    ensures r[HeadersKey].Fields?
    ensures ContentTypeHeader in r[HeadersKey].fields
    ensures forall k :: k in CallerHeaders(options) ==> k in r[HeadersKey].fields && r[HeadersKey].fields[k] == CallerHeaders(options)[k]
    ensures ContentTypeHeader !in CallerHeaders(options) ==> r[HeadersKey].fields[ContentTypeHeader] == JsonMediaType
    ensures forall k :: k in r[HeadersKey].fields ==> k == ContentTypeHeader || k in CallerHeaders(options)
  {
    var d := DefaultOptions(options);
    d + options + map[HeadersKey := d[HeadersKey]]
  }

  /** Without caller headers the two merges coincide. */
  lemma MergesAgreeWithoutHeaders(options: RequestOptions)
    requires HeadersKey !in options
    ensures MergeOptionsIntended(options) == MergeOptions(options)
  {
  }

  // ---------------------------------------------------------------------------
  // Responses

  /**
   * A parsed JSON value as this client sees it. `JsonNull` is the literal `null`
   * (reading a property of it throws); every other value is seen through its
   * `error` and `msg` properties.
   */
  datatype JsonView = JsonNull | JsonValue(error: Option<string>, msg: Option<string>)

  /** The `{}` returned for an empty successful body. */
  const EmptyObject := JsonValue(None, None)

  /**
   * A response: its `ok` flag, `status`, body text, and what JSON.parse makes of
   * that body (`None` when it throws).
   */
  datatype Response = Response(ok: bool, status: nat, body: string, parsed: Option<JsonView>)

  /** Why an `apiRequest` promise rejects. */
  datatype ApiError =
    | RequestFailed(message: string)  // the Error thrown for a non-ok response
    | NetworkError                    // fetch itself rejected
    | InvalidJson                     // a successful body that JSON.parse rejects

  type Outcome = Result<JsonView, ApiError>

  function HttpStatusMessage(status: nat): (m: string)
    ensures |m| > 5 && m[..5] == "HTTP "
    ensures m[5..] == Decimal.NatToString(status)
  {
    "HTTP " + Decimal.NatToString(status)
  }

  /** The value of JavaScript's `c[0] || c[1] || ... || fallback` over strings. */
  function FirstNonEmpty(candidates: seq<string>, fallback: string): (r: string)
    ensures (r == fallback && forall j :: 0 <= j < |candidates| ==> candidates[j] == "")
         || (exists i :: 0 <= i < |candidates| && candidates[i] == r && r != ""
               && forall j :: 0 <= j < i ==> candidates[j] == "")
  {
    if candidates == [] then fallback
    else if candidates[0] != "" then candidates[0]
    else
      var r := FirstNonEmpty(candidates[1..], fallback);
      assert forall j :: 1 <= j < |candidates| ==> candidates[j] == candidates[1..][j - 1];
      r
  }

  /**
   * The message of the Error thrown for a non-ok response: a JSON body's `error`,
   * else its `msg`, else `HTTP <status>`; a body that is not JSON (or is `null`)
   * gives its own text, else `HTTP <status>`.
   */
  function ErrorMessage(status: nat, body: string, parsed: Option<JsonView>): (m: string)
    ensures m != ""
    ensures parsed.Some? && parsed.value.JsonValue? ==>
      m == FirstNonEmpty([OrEmpty(parsed.value.error), OrEmpty(parsed.value.msg)], HttpStatusMessage(status))
    ensures !(parsed.Some? && parsed.value.JsonValue?) ==>
      m == FirstNonEmpty([body], HttpStatusMessage(status))
  {
    match parsed
    case Some(JsonValue(error, msg)) =>
      if OrEmpty(error) != "" then OrEmpty(error)
      else if OrEmpty(msg) != "" then OrEmpty(msg)
      else HttpStatusMessage(status)
    case _ =>
      if body != "" then body else HttpStatusMessage(status)
  }

  /** The message is always server-supplied text or the status fallback, never anything else. */
  lemma ErrorMessageSource(status: nat, body: string, parsed: Option<JsonView>)
    ensures var m := ErrorMessage(status, body, parsed);
      m == HttpStatusMessage(status) || m == body
      || (parsed.Some? && parsed.value.JsonValue? && (parsed.value.error == Some(m) || parsed.value.msg == Some(m)))
  {
  }

  /** What the `apiRequest` promise settles to for a reply (`None`: fetch rejected). */
  function HandleResponse(reply: Option<Response>): (r: Outcome)
    ensures reply.None? ==> r == Failure(NetworkError)
    ensures reply.Some? && !reply.value.ok ==>
      r == Failure(RequestFailed(ErrorMessage(reply.value.status, reply.value.body, reply.value.parsed)))
    ensures reply.Some? && reply.value.ok && reply.value.body == "" ==> r == Success(EmptyObject)
    ensures reply.Some? && reply.value.ok && reply.value.body != "" ==>
      r == (if reply.value.parsed.Some? then Success(reply.value.parsed.value) else Failure(InvalidJson))
  {
    match reply
    case None => Failure(NetworkError)
    case Some(resp) =>
      if !resp.ok then Failure(RequestFailed(ErrorMessage(resp.status, resp.body, resp.parsed)))
      else if resp.body == "" then Success(EmptyObject)
      else match resp.parsed
        case Some(v) => Success(v)
        case None => Failure(InvalidJson)
  }

  /** A request succeeds exactly for an ok response whose body is empty or parses. */
  lemma SuccessIff(reply: Option<Response>)
    ensures HandleResponse(reply).Success? <==>
      reply.Some? && reply.value.ok && (reply.value.body == "" || reply.value.parsed.Some?)
  {
  }

  /** Every rejection for a non-ok response carries a non-empty message. */
  lemma FailureMessageNonEmpty(reply: Option<Response>)
    requires HandleResponse(reply).Failure? && HandleResponse(reply).error.RequestFailed?
    ensures reply.Some? && !reply.value.ok
    ensures HandleResponse(reply).error.message != ""
  {
  }

  // ---------------------------------------------------------------------------
  // Requests and the endpoint table

  /** What is handed to fetch: the resolved URL and the merged options. */
  datatype Request = Request(url: string, options: RequestOptions)

  /**
   * `apiRequest(endpoint, options)` up to the fetch call, for the build variable
   * `viteApiUrl`: a relative endpoint goes to the base URL, an absolute one as is; the
   * caller's options win over the defaults, key by key.
   */
  function PrepareRequest(viteApiUrl: Option<string>, endpoint: string, options: RequestOptions): (req: Request)
    ensures StartsWith(endpoint, "http") ==> req.url == endpoint
    ensures !StartsWith(endpoint, "http") ==> req.url == OrEmpty(viteApiUrl) + endpoint
    ensures req.options.Keys == options.Keys + {CredentialsKey, HeadersKey}
    ensures forall k :: k in options ==> req.options[k] == options[k]
    ensures CredentialsKey !in options ==> req.options[CredentialsKey] == Text(IncludeCredentials)
    ensures HeadersKey !in options ==> req.options[HeadersKey] == Fields(map[ContentTypeHeader := JsonMediaType])
  {
    Request(ResolveUrl(BaseUrl(viteApiUrl), endpoint), MergeOptions(options))
  }

  /** The helpers of the `api` object; a JSON body is its `JSON.stringify` text. */
  datatype Endpoint =
    | VerifyToken(userJson: string)
    | GetUserInfo
    | Logout
    | GetStudents
    | GiftLunch(recipientJson: string)

  /** The path each helper calls: a relative path under `/api/`. */
  function EndpointPath(e: Endpoint): (path: string)
    ensures StartsWith(path, "/api/") && !StartsWith(path, "http")
    ensures e.VerifyToken? ==> path == "/api/verify-token"
    ensures e.GetUserInfo? ==> path == "/api/user-info"
    ensures e.Logout? ==> path == "/api/logout"
    ensures e.GetStudents? ==> path == "/api/students"
    ensures e.GiftLunch? ==> path == "/api/give_lunch_direct"
  {
    var path := match e
      case VerifyToken(_) => "/api/verify-token"
      case GetUserInfo => "/api/user-info"
      case Logout => "/api/logout"
      case GetStudents => "/api/students"
      case GiftLunch(_) => "/api/give_lunch_direct";
    assert path[..5] == "/api/";
    assert path[..4] != "http" by { assert path[0] == '/'; }
    path
  }

  /**
   * The options each helper passes: `method: 'POST'` for verifyToken, logout and
   * giftLunch, the JSON body for verifyToken and giftLunch, and nothing else.
   */
  function EndpointOptions(e: Endpoint): (options: RequestOptions)
    ensures options.Keys <= {MethodKey, BodyKey}
    ensures MethodKey in options <==> e.VerifyToken? || e.Logout? || e.GiftLunch?
    ensures MethodKey in options ==> options[MethodKey] == Text("POST")
    ensures BodyKey in options <==> e.VerifyToken? || e.GiftLunch?
    ensures e.VerifyToken? ==> options[BodyKey] == Text(e.userJson)
    ensures e.GiftLunch? ==> options[BodyKey] == Text(e.recipientJson)
  {
    match e
    case VerifyToken(body) => map[MethodKey := Text("POST"), BodyKey := Text(body)]
    case GetUserInfo => map[]
    case Logout => map[MethodKey := Text("POST")]
    case GetStudents => map[]
    case GiftLunch(body) => map[MethodKey := Text("POST"), BodyKey := Text(body)]
  }

  /**
   * The request an `api` helper makes: its path after the base URL, cookies and the
   * JSON content type always, and its own method and body.
   */
  function EndpointRequest(viteApiUrl: Option<string>, e: Endpoint): (req: Request)
    ensures req.url == OrEmpty(viteApiUrl) + EndpointPath(e)
    ensures req.options.Keys == EndpointOptions(e).Keys + {CredentialsKey, HeadersKey}
    ensures req.options[CredentialsKey] == Text(IncludeCredentials)
    ensures req.options[HeadersKey] == Fields(map[ContentTypeHeader := JsonMediaType])
    ensures forall k :: k in EndpointOptions(e) ==> req.options[k] == EndpointOptions(e)[k]
  {
    PrepareRequest(viteApiUrl, EndpointPath(e), EndpointOptions(e))
  }

  /**
   * No helper passes `headers`, so for every call through the `api` table the
   * corrected merge gives the same options as the merge as written.
   */
  lemma EndpointTable(viteApiUrl: Option<string>, e: Endpoint)
    ensures EndpointRequest(viteApiUrl, e).options == MergeOptionsIntended(EndpointOptions(e))
  {
    MergesAgreeWithoutHeaders(EndpointOptions(e));
  }
}
