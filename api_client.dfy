/**
 * The HTTP client of packages/core/src/api/apiClient.ts: bearer-token injection by the
 * request interceptor, classification of failed exchanges by the response interceptor
 * (with the `onUnauthorized` hook), optional schema validation, the per-verb wrappers,
 * the canned development-mode `get` routing and the module-level client singleton.
 *
 * The transport (axios), the token storage and the schema engine (zod) are inputs: the
 * transport is a function from the request it is handed to the exchange that follows,
 * the token storage contributes the value its `get()` settles with, and a schema is a
 * `safeParse` function.
 */
module ApiClient {
  import opened Wrappers
  import opened Strings

  // ---------------------------------------------------------------------------
  // Values, errors and exchanges

  /** A JavaScript value as it travels through the client (numbers modelled as integers). */
  datatype Json =
    | Undefined
    | Null
    | Bool(b: bool)
    | Num(n: int)
    | Str(s: string)
    | Arr(items: seq<Json>)
    | Obj(fields: map<string, Json>)

  /** The server's answer that an axios error carries when one came back. */
  datatype Response = Response(status: int, data: Json)

  /**
   * A value handed to the response interceptor's error handler: an axios error, or any
   * other thrown value seen through the same three properties (`response`, `request`, `code`).
   * `requestSent` stands for a defined `error.request`.
   */
  datatype RawError = RawError(response: Option<Response>, requestSent: bool, code: Option<string>, message: string)

  /** `ApiError(message, status?, code?, data?)`; `message` is the value handed to the `Error` constructor. */
  datatype ApiError = ApiError(message: Json, status: Option<int>, code: Option<string>, data: Json)

  /** `ValidationError(message, zodError)`; the schema engine's failure detail is opaque. */
  datatype ValidationError = ValidationError(message: string, detail: Json)

  /** What a failed call throws. */
  datatype Thrown =
    | Api(apiError: ApiError)
    | Validation(validationError: ValidationError)
    | Rethrown(original: RawError)
    | HookThrown(value: Json)

  const NetworkErrorMessage := "Network error: Unable to reach server"
  const ValidationFailedMessage := "Response validation failed"
  const NotInitializedMessage := "ApiClient not initialized. Call initApiClient() first."
  const DefaultTimeout := 30000
  const AuthorizationHeader := "Authorization"

  // ---------------------------------------------------------------------------
  // Request interceptor: token injection

  /** What the configured storage's `get()` settles with: a token or null, or a rejection. */
  datatype TokenRead = Token(value: Option<string>) | ReadFailed(error: RawError)

  /** JavaScript truthiness of `string | null`: present and not empty. */
  predicate IsTruthy(token: Option<string>) {
    token.Some? && token.value != ""
  }

  /**
   * The headers after the interceptor's `if (token) config.headers.Authorization = ...`.
   * Exactly the `Authorization` header may change, and it is set to `Bearer <token>` exactly
   * when a storage is configured and its token is truthy.
   */
  function WithAuthorization(headers: map<string, string>, hasTokenStorage: bool, token: Option<string>): (r: map<string, string>)
    ensures headers.Keys <= r.Keys
    ensures forall k :: k != AuthorizationHeader ==> (k in r <==> k in headers)
    ensures forall k :: k != AuthorizationHeader && k in r ==> r[k] == headers[k]
    ensures hasTokenStorage && IsTruthy(token) ==> AuthorizationHeader in r && r[AuthorizationHeader] == "Bearer " + token.value
    ensures !(hasTokenStorage && IsTruthy(token)) ==> r == headers
  {
    if hasTokenStorage then
      if IsTruthy(token) then headers[AuthorizationHeader := "Bearer " + token.value] else headers
    else headers
  }

  /**
   * The whole request interceptor on a header map: a rejected token read aborts the request
   * with that rejection; otherwise the headers gain the bearer token as above.
   * The storage is consulted only when one is configured.
   */
  function InterceptedHeaders(headers: map<string, string>, hasTokenStorage: bool, token: TokenRead): (r: Result<map<string, string>, RawError>)
    ensures r.Failure? <==> hasTokenStorage && token.ReadFailed?
    ensures r.Failure? ==> r.error == token.error
    ensures r.Success? ==> headers.Keys <= r.value.Keys
    ensures r.Success? && hasTokenStorage ==> r.value == WithAuthorization(headers, true, token.value)
    ensures r.Success? && !hasTokenStorage ==> r.value == headers
  {
    if !hasTokenStorage then Success(headers)
    else match token
      case ReadFailed(e) => Failure(e)
      case Token(t) => Success(WithAuthorization(headers, true, t))
  }

  // ---------------------------------------------------------------------------
  // Response interceptor: the unauthorized hook and failure classification

  /** A JavaScript number as `Number(...)` yields it here: NaN for `undefined`. */
  datatype JsNumber = NaN | Finite(v: int)

  const UnauthorizedStatuses: seq<int> := [401, 403, 404]

  /** `Number(error.response?.status)`. */
  function StatusNumber(response: Option<Response>): JsNumber {
    match response
    case None => NaN
    case Some(res) => Finite(res.status)
  }

  /** `list.includes(n)`: SameValueZero comparison, under which NaN equals no integer. */
  function IncludesNumber(list: seq<int>, n: JsNumber): bool {
    if list == [] then false
    else (n.Finite? && n.v == list[0]) || IncludesNumber(list[1..], n)
  }

  /** `includes` on a list of integers is membership of a finite number; NaN is never included. */
  lemma {:induction false} IncludesNumberIff(list: seq<int>, n: JsNumber)
    ensures IncludesNumber(list, n) <==> n.Finite? && n.v in list
  {
    if list != [] {
      IncludesNumberIff(list[1..], n);
      assert list == [list[0]] + list[1..];
    }
  }

  /**
   * Whether the error handler invokes `onUnauthorized`: only with a hook configured and a
   * response whose status is 401, 403 or 404; never without a response.
   */
  function FiresUnauthorized(e: RawError, hasOnUnauthorized: bool): (r: bool)
    ensures r <==> hasOnUnauthorized && e.response.Some? && e.response.value.status in {401, 403, 404}
  {
    IncludesNumberIff(UnauthorizedStatuses, StatusNumber(e.response));
    IncludesNumber(UnauthorizedStatuses, StatusNumber(e.response)) && hasOnUnauthorized
  }

  /** `data?.message`: a property read that yields `undefined` on anything but an object holding it. */
  function MessageProperty(data: Json): Json {
    match data
    case Obj(fields) => if "message" in fields then fields["message"] else Undefined
    case _ => Undefined
  }

  /** The server supplied a message: the body is an object whose `message` is neither null nor undefined. */
  predicate HasServerMessage(data: Json) {
    data.Obj? && "message" in data.fields && data.fields["message"] != Undefined && data.fields["message"] != Null
  }

  /** `errorData?.message ?? error.message`. */
  function ErrorMessage(data: Json, transportMessage: string): (r: Json)
    ensures HasServerMessage(data) ==> r == data.fields["message"]
    ensures !HasServerMessage(data) ==> r == Str(transportMessage)
  {
    var m := MessageProperty(data);
    if m == Undefined || m == Null then Str(transportMessage) else m
  }

  /**
   * The error the handler throws. Exactly one branch applies: an `ApiError` carrying the
   * response's status, the code and the raw body when a response came back; an `ApiError`
   * with no status and the network-error message when the request went out with no answer;
   * otherwise the original value, unchanged.
   */
  function Classify(e: RawError): (r: Thrown)
    ensures !r.Validation?
    ensures (r.Api? && r.apiError.status.Some?) <==> e.response.Some?
    ensures (r.Api? && r.apiError.status.None?) <==> e.response.None? && e.requestSent
    ensures r.Rethrown? <==> e.response.None? && !e.requestSent
    ensures r.Rethrown? ==> r.original == e
    ensures e.response.Some? ==>
      && r.apiError.status == Some(e.response.value.status)
      && r.apiError.code == e.code
      && r.apiError.data == e.response.value.data
      && (HasServerMessage(e.response.value.data) ==> r.apiError.message == e.response.value.data.fields["message"])
      && (!HasServerMessage(e.response.value.data) ==> r.apiError.message == Str(e.message))
    ensures e.response.None? && e.requestSent ==> r.apiError == ApiError(Str(NetworkErrorMessage), None, e.code, Undefined)
  {
    match e.response
    case Some(res) => Api(ApiError(ErrorMessage(res.data, e.message), Some(res.status), e.code, res.data))
    case None =>
      if e.requestSent then Api(ApiError(Str(NetworkErrorMessage), None, e.code, Undefined))
      else Rethrown(e)
  }

  /** How the configured `onUnauthorized` hook behaves once called. */
  datatype HookRun =
    | HookSettles
    | HookRejects(reason: Json)
    | HookThrows(thrown: Json)

  /** What becomes of the hook's failure: none, logged by the `.catch`, or escaping the error handler. */
  datatype HookEffect = Quiet | Logged(reason: Json) | Escaped(thrown: Json)

  /**
   * `Promise.resolve(this.onUnauthorized()).catch(log)` as written: the hook is called before
   * `Promise.resolve` sees anything, so a hook that throws synchronously throws out of the
   * error handler; only a rejected promise reaches the `.catch`.
   */
  function InvokeHookAsWritten(hook: HookRun): (r: HookEffect)
    ensures r.Escaped? <==> hook.HookThrows?
    ensures r.Logged? <==> hook.HookRejects?
  {
    match hook
    case HookSettles => Quiet
    case HookRejects(x) => Logged(x)
    case HookThrows(x) => Escaped(x)
  }

  /**
   * The hook called from inside the promise chain (`Promise.resolve().then(() => this.onUnauthorized())`):
   * a synchronous throw becomes a rejection, and every failure of the hook is logged.
   */
  function InvokeHook(hook: HookRun): (r: HookEffect)
    ensures !r.Escaped?
    ensures r.Logged? <==> !hook.HookSettles?
  {
    match hook
    case HookSettles => Quiet
    case HookRejects(x) => Logged(x)
    case HookThrows(x) => Logged(x)
  }

  /** What the error handler throws: a hook failure that escaped when the hook fired, else the classified error. */
  function HandlerThrow(escaped: HookEffect, fires: bool, e: RawError): Thrown {
    if fires && escaped.Escaped? then HookThrown(escaped.thrown) else Classify(e)
  }

  /** The error handler as written, for a hook that behaves as `hook`. */
  function RespondToErrorAsWritten(e: RawError, hasOnUnauthorized: bool, hook: HookRun): (r: Thrown)
    ensures r.HookThrown? <==> FiresUnauthorized(e, hasOnUnauthorized) && hook.HookThrows?
    ensures !r.HookThrown? ==> r == Classify(e)
  {
    HandlerThrow(InvokeHookAsWritten(hook), FiresUnauthorized(e, hasOnUnauthorized), e)
  }

  /** The error handler with the hook's failures contained: the classified error, whatever the hook does. */
  function RespondToError(e: RawError, hasOnUnauthorized: bool, hook: HookRun): (r: Thrown)
    ensures r == Classify(e)
  {
    HandlerThrow(InvokeHook(hook), FiresUnauthorized(e, hasOnUnauthorized), e)
  }

  /**
   * A 401 answer and a hook that throws synchronously: as written the caller receives the
   * hook's exception, and the `ApiError` for the 401 is lost.
   */
  lemma SyncHookThrowMasksApiError()
    ensures var e := RawError(Some(Response(401, Obj(map[]))), true, Some("ERR_BAD_REQUEST"), "Request failed with status code 401");
      && Classify(e).Api?
      && RespondToErrorAsWritten(e, true, HookThrows(Str("hook failed"))) == HookThrown(Str("hook failed"))
      && RespondToError(e, true, HookThrows(Str("hook failed"))) == Classify(e)
  {
    var e := RawError(Some(Response(401, Obj(map[]))), true, Some("ERR_BAD_REQUEST"), "Request failed with status code 401");
    assert FiresUnauthorized(e, true);
  }

  /** The two handlers differ only for a hook that throws synchronously on a status that fires it. */
  lemma AsWrittenAgreesUnlessHookThrows(e: RawError, hasOnUnauthorized: bool, hook: HookRun)
    ensures RespondToErrorAsWritten(e, hasOnUnauthorized, hook) == RespondToError(e, hasOnUnauthorized, hook)
      <==> !(FiresUnauthorized(e, hasOnUnauthorized) && hook.HookThrows?)
  {
  }

  // ---------------------------------------------------------------------------
  // Schema validation

  /** What `schema.safeParse(data)` returns. */
  datatype SafeParse = Parsed(data: Json) | Invalid(detail: Json)

  /** A zod schema, seen through its `safeParse`. */
  type Schema = Json -> SafeParse

  /**
   * `validate(data, schema)`: the parsed value when the schema accepts `data`, a
   * `ValidationError` carrying the schema's failure detail when it rejects it.
   */
  function Validate(data: Json, schema: Schema): (r: Result<Json, ValidationError>)
    ensures r.Success? <==> schema(data).Parsed?
    ensures r.Success? ==> r.value == schema(data).data
    ensures r.Failure? ==> r.error == ValidationError(ValidationFailedMessage, schema(data).detail)
  {
    var result := schema(data);
    if !result.Parsed? then Failure(ValidationError(ValidationFailedMessage, result.detail))
    else Success(result.data)
  }

  // ---------------------------------------------------------------------------
  // Requests and outcomes

  datatype Verb = GET | POST | PUT | PATCH | DELETE

  /** A request as the transport receives it; `data` is the body or `config.data` handed to axios, if any. */
  datatype Request = Request(verb: Verb, url: string, headers: map<string, string>, data: Option<Json>)

  /** What the transport does with a request: answers with a body, or rejects. */
  datatype Exchange = Answered(body: Json) | Failed(error: RawError)

  type Transport = Request -> Exchange

  /**
   * The observable result of one call: what it returns or throws, whether it fired the
   * `onUnauthorized` hook, and the request the transport was handed (none when the call
   * never reached it).
   */
  datatype Outcome = Outcome(result: Result<Json, Thrown>, hookFired: bool, sent: Option<Request>)

  /** The per-call headers: the instance's JSON content type, or multipart for `postFormData`. */
  const JsonHeaders: map<string, string> := map["Content-Type" := "application/json"]
  const FormDataHeaders: map<string, string> := map["Content-Type" := "multipart/form-data"]

  /** `delete`'s `body !== undefined ? { data: body } : undefined`. */
  function DeleteData(body: Json): (r: Option<Json>)
    ensures r.Some? <==> body != Undefined
    ensures r.Some? ==> r.value == body
  {
    if body != Undefined then Some(body) else None
  }

  /** The canned answer a development-mode `get` gives, by branch. */
  datatype MockTag =
    | MockUser
    | MockRules
    | MockConnectors
    | MockConnectLink
    | MockGroups
    | MockEmptyList
    | MockEmptyObject

  /** The answer of `get`: a canned development-mode tag, or the outcome of a real call. */
  datatype GetOutcome = Mocked(tag: MockTag) | Live(outcome: Outcome)

  /**
   * The development-mode routing of `get`: the source's if-chain over URL substrings. A
   * user URL always gets the user, a URL with none of the tested substrings the empty
   * object, and each other answer needs its substrings.
   */
  function DevRoute(url: string): (tag: MockTag)
    ensures Includes(url, "/users/me") || Includes(url, "/auth/me") <==> tag == MockUser
    ensures tag == MockRules ==> Includes(url, "/rules")
    ensures tag == MockConnectors ==> Includes(url, "/connectors") && !Includes(url, "/connect/")
    ensures tag == MockConnectLink ==> Includes(url, "/connectors/connect/")
    ensures tag == MockGroups ==> Includes(url, "groups") || Includes(url, "waha")
    ensures tag == MockEmptyList ==> Includes(url, "tasks") || Includes(url, "suggestions")
    ensures !Includes(url, "/users/me") && !Includes(url, "/auth/me") && !Includes(url, "/rules") && !Includes(url, "/connectors")
      && !Includes(url, "groups") && !Includes(url, "waha") && !Includes(url, "tasks") && !Includes(url, "suggestions")
      ==> tag == MockEmptyObject
  {
    ConnectLinkParts(url);
    if Includes(url, "/users/me") || Includes(url, "/auth/me") then MockUser
    else if Includes(url, "/rules") then MockRules
    else if Includes(url, "/connectors") && !Includes(url, "/connect/") then MockConnectors
    else if Includes(url, "/connectors/connect/") then MockConnectLink
    else if Includes(url, "groups") || Includes(url, "waha") then MockGroups
    else if Includes(url, "tasks") || Includes(url, "suggestions") then MockEmptyList
    else MockEmptyObject
  }

  /** A URL with `/connectors/connect/` contains `/connectors` and `/connect/`. */
  lemma ConnectLinkParts(url: string)
    ensures Includes(url, "/connectors/connect/") ==> Includes(url, "/connectors") && Includes(url, "/connect/")
  {
    if Includes(url, "/connectors/connect/") {
      assert "/connectors/connect/" == "/connectors" + "/connect/";
      IncludesParts(url, "/connectors", "/connect/");
    }
  }

  /** One routing rule: the URL contains one of `anyOf` and none of `noneOf`. */
  datatype RouteRule = RouteRule(anyOf: seq<string>, noneOf: seq<string>, tag: MockTag)

  predicate RuleMatches(rule: RouteRule, url: string) {
    AnyIncluded(url, rule.anyOf) && !AnyIncluded(url, rule.noneOf)
  }

  /** Some string of `ts` occurs in `url`. */
  predicate AnyIncluded(url: string, ts: seq<string>) {
    ts != [] && (Includes(url, ts[0]) || AnyIncluded(url, ts[1..]))
  }

  /** The routing rules in the order they are tried; an unmatched URL gets the empty object. */
  const RouteTable: seq<RouteRule> := [
    RouteRule(["/users/me", "/auth/me"], [], MockUser),
    RouteRule(["/rules"], [], MockRules),
    RouteRule(["/connectors"], ["/connect/"], MockConnectors),
    RouteRule(["/connectors/connect/"], [], MockConnectLink),
    RouteRule(["groups", "waha"], [], MockGroups),
    RouteRule(["tasks", "suggestions"], [], MockEmptyList)
  ]

  /** The index of the first rule from `i` on that matches, or `|rules|` when none does. */
  function FirstMatch(rules: seq<RouteRule>, url: string, i: nat): (k: nat)
    requires i <= |rules|
    ensures i <= k <= |rules|
    ensures forall j :: i <= j < k ==> !RuleMatches(rules[j], url)
    ensures k < |rules| ==> RuleMatches(rules[k], url)
    decreases |rules| - i
  {
    if i == |rules| then i
    else if RuleMatches(rules[i], url) then i
    else FirstMatch(rules, url, i + 1)
  }

  /** The answer the routing table gives for `url`: the tag of its first matching rule, else the empty object. */
  function TableRoute(url: string): MockTag {
    var k := FirstMatch(RouteTable, url, 0);
    if k < |RouteTable| then RouteTable[k].tag else MockEmptyObject
  }

  /** What each rule of the table tests, written out. */
  lemma RouteRulesMatch(url: string)
    ensures RuleMatches(RouteTable[0], url) <==> Includes(url, "/users/me") || Includes(url, "/auth/me")
    ensures RuleMatches(RouteTable[1], url) <==> Includes(url, "/rules")
    ensures RuleMatches(RouteTable[2], url) <==> Includes(url, "/connectors") && !Includes(url, "/connect/")
    ensures RuleMatches(RouteTable[3], url) <==> Includes(url, "/connectors/connect/")
    ensures RuleMatches(RouteTable[4], url) <==> Includes(url, "groups") || Includes(url, "waha")
    ensures RuleMatches(RouteTable[5], url) <==> Includes(url, "tasks") || Includes(url, "suggestions")
  {
    AnyOfTwo(url, "/users/me", "/auth/me");
    AnyOfOne(url, "/rules");
    AnyOfOne(url, "/connectors");
    AnyOfOne(url, "/connect/");
    AnyOfOne(url, "/connectors/connect/");
    AnyOfTwo(url, "groups", "waha");
    AnyOfTwo(url, "tasks", "suggestions");
  }

  /** Development-mode routing answers with the tag of the first rule of the table that matches. */
  lemma DevRouteIsFirstMatch(url: string)
    ensures DevRoute(url) == TableRoute(url)
  {
    RouteRulesMatch(url);
    var k := FirstMatch(RouteTable, url, 0);
    assert k == 0 <==> RuleMatches(RouteTable[0], url);
    assert 0 < k ==> !RuleMatches(RouteTable[0], url);
    assert 1 < k ==> !RuleMatches(RouteTable[1], url);
    assert 2 < k ==> !RuleMatches(RouteTable[2], url);
    assert 3 < k ==> !RuleMatches(RouteTable[3], url);
    assert 4 < k ==> !RuleMatches(RouteTable[4], url);
    assert 5 < k ==> !RuleMatches(RouteTable[5], url);
  }

  lemma AnyOfOne(url: string, a: string)
    ensures AnyIncluded(url, [a]) <==> Includes(url, a)
    ensures !AnyIncluded(url, [])
  {
    assert [a][1..] == [];
  }

  lemma AnyOfTwo(url: string, a: string, b: string)
    ensures AnyIncluded(url, [a, b]) <==> Includes(url, a) || Includes(url, b)
  {
    assert [a, b][1..] == [b];
    AnyOfOne(url, b);
  }

  /**
   * A URL with `/connectors/connect/` reaches the fourth rule when the first two do not
   * catch it: it also contains `/connectors`, but the third rule excludes `/connect/`.
   */
  lemma ConnectUrlRoutesToConnectLink(url: string)
    requires Includes(url, "/connectors/connect/")
    requires !Includes(url, "/users/me") && !Includes(url, "/auth/me") && !Includes(url, "/rules")
    ensures DevRoute(url) == MockConnectLink
  {
    ConnectLinkParts(url);
  }

  // ---------------------------------------------------------------------------
  // The client

  /** `ApiClientConfig`; the token storage and the hook are represented by their presence. */
  datatype ApiClientConfig = ApiClientConfig(
    baseURL: Option<string>,
    isNative: bool,
    hasTokenStorage: bool,
    hasOnUnauthorized: bool,
    timeout: Option<int>)

  /** The headers object a request interceptor receives and changes in place. */
  class RequestConfig {
    var url: string
    var headers: map<string, string>

    constructor (url: string, headers: map<string, string>)
      ensures this.url == url && this.headers == headers
    {
      this.url := url;
      this.headers := headers;
    }
  }

  class Client {
    /** The axios instance's defaults. */
    const baseURL: Option<string>
    const timeout: int
    const withCredentials: bool
    /** The `tokenStorage` and `onUnauthorized` fields, assigned once by the constructor. */
    const hasTokenStorage: bool
    const hasOnUnauthorized: bool

    constructor (config: ApiClientConfig)
      ensures baseURL == config.baseURL
      ensures timeout == config.timeout.GetOr(DefaultTimeout)
      ensures withCredentials == !config.isNative
      ensures hasTokenStorage == config.hasTokenStorage
      ensures hasOnUnauthorized == config.hasOnUnauthorized
    {
      baseURL := config.baseURL;
      timeout := config.timeout.GetOr(DefaultTimeout);
      withCredentials := !config.isNative;
      hasTokenStorage := config.hasTokenStorage;
      hasOnUnauthorized := config.hasOnUnauthorized;
    }

    /** `getBaseURL()`: the configured base URL, or the empty string when there is none. */
    function GetBaseURL(): (r: string)
      ensures baseURL.Some? ==> r == baseURL.value
      ensures baseURL.None? ==> r == ""
    {
      baseURL.GetOr("")
    }

    /**
     * The request interceptor, changing `config.headers` in place. A rejected token read
     * leaves the headers alone and is returned as the rejection that aborts the request.
     */
    method InterceptRequest(config: RequestConfig, token: TokenRead) returns (r: Result<(), RawError>)
      modifies config
      ensures config.url == old(config.url)
      ensures r.Failure? <==> InterceptedHeaders(old(config.headers), hasTokenStorage, token).Failure?
      ensures r.Failure? ==> r.error == token.error && config.headers == old(config.headers)
      ensures r.Success? ==> config.headers == InterceptedHeaders(old(config.headers), hasTokenStorage, token).value
    {
      if hasTokenStorage {
        match token {
          case ReadFailed(e) =>
            return Failure(e);
          case Token(t) =>
            if IsTruthy(t) {
              config.headers := config.headers[AuthorizationHeader := "Bearer " + t.value];
            }
        }
      }
      return Success(());
    }

    /**
     * One exchange through both interceptors: the request interceptor runs; if it rejects,
     * the transport is never called and the rejection goes to the response error handler;
     * otherwise the transport answers or fails, and a failure is classified (firing the
     * hook on 401, 403 and 404).
     */
    function Send(req: Request, token: TokenRead, transport: Transport): (r: Outcome)
      ensures r.sent.Some? <==> InterceptedHeaders(req.headers, hasTokenStorage, token).Success?
      ensures r.sent.Some? ==> r.sent.value == req.(headers := InterceptedHeaders(req.headers, hasTokenStorage, token).value)
      ensures r.result.Success? ==> r.sent.Some? && transport(r.sent.value) == Answered(r.result.value) && !r.hookFired
      ensures r.sent.Some? && transport(r.sent.value).Failed? ==>
        var e := transport(r.sent.value).error;
        r.result == Failure(Classify(e)) && r.hookFired == FiresUnauthorized(e, hasOnUnauthorized)
      ensures r.sent.None? ==>
        r.result == Failure(Classify(token.error)) && r.hookFired == FiresUnauthorized(token.error, hasOnUnauthorized)
    {
      match InterceptedHeaders(req.headers, hasTokenStorage, token)
      case Failure(e) => Outcome(Failure(Classify(e)), FiresUnauthorized(e, hasOnUnauthorized), None)
      case Success(headers) =>
        var sent := req.(headers := headers);
        match transport(sent)
        case Answered(body) => Outcome(Success(body), false, Some(sent))
        case Failed(e) => Outcome(Failure(Classify(e)), FiresUnauthorized(e, hasOnUnauthorized), Some(sent))
    }

    /**
     * The body of every verb wrapper after the exchange: `schema ? validate(data, schema) : data`
     * inside a `try` whose `catch` logs and rethrows the same error.
     */
    function Finish(o: Outcome, schema: Option<Schema>): (r: Outcome)
      ensures r.hookFired == o.hookFired && r.sent == o.sent
      ensures o.result.Failure? ==> r.result == o.result
      ensures o.result.Success? && schema.None? ==> r.result == o.result
      ensures o.result.Success? && schema.Some? ==>
        match Validate(o.result.value, schema.value)
        case Success(v) => r.result == Success(v)
        case Failure(ve) => r.result == Failure(Validation(ve))
    {
      match o.result
      case Failure(_) => o
      case Success(data) =>
        if schema.None? then o
        else match Validate(data, schema.value)
          case Success(v) => o.(result := Success(v))
          case Failure(ve) => o.(result := Failure(Validation(ve)))
    }

    /**
     * `post`, `postFormData`, `put`, `patch` and `delete`: one exchange with the verb's
     * request, then optional validation; a failure is never swallowed.
     */
    function Call(verb: Verb, url: string, body: Json, formData: bool, schema: Option<Schema>, token: TokenRead, transport: Transport): (r: Outcome)
      requires verb != GET
      requires formData ==> verb == POST
      ensures r.sent.Some? <==> !(hasTokenStorage && token.ReadFailed?)
      ensures r.sent.Some? ==> r.sent.value.verb == verb && r.sent.value.url == url
      ensures r.sent.Some? ==> r.sent.value.data == (if verb == DELETE then DeleteData(body) else Some(body))
      ensures r.sent.Some? ==> "Content-Type" in r.sent.value.headers && r.sent.value.headers["Content-Type"] == (if formData then "multipart/form-data" else "application/json")
      ensures r.sent.Some? ==> r.sent.value.headers == InterceptedHeaders(if formData then FormDataHeaders else JsonHeaders, hasTokenStorage, token).value
      ensures r.sent.None? ==> r.result == Failure(Classify(token.error)) && r.hookFired == FiresUnauthorized(token.error, hasOnUnauthorized)
      ensures r.sent.Some? && transport(r.sent.value).Failed? ==>
        var e := transport(r.sent.value).error;
        r.result == Failure(Classify(e)) && r.hookFired == FiresUnauthorized(e, hasOnUnauthorized)
      ensures r.sent.Some? && transport(r.sent.value).Answered? ==> !r.hookFired
      ensures r.sent.Some? && transport(r.sent.value).Answered? && schema.None? ==> r.result == Success(transport(r.sent.value).body)
      ensures r.sent.Some? && transport(r.sent.value).Answered? && schema.Some? ==>
        var check := Validate(transport(r.sent.value).body, schema.value);
        r.result == (if check.Success? then Success(check.value) else Failure(Validation(check.error)))
      ensures r.hookFired ==> r.result.Failure?
    {
      var headers := if formData then FormDataHeaders else JsonHeaders;
      var data := if verb == DELETE then DeleteData(body) else Some(body);
      assert "Content-Type" in headers && AuthorizationHeader !in headers;
      Finish(Send(Request(verb, url, headers, data), token, transport), schema)
    }

    /**
     * `get`: in development mode a canned tag chosen by `DevRoute`, with no transport call and
     * the schema ignored; otherwise a `GET` without body through the same pipeline as `Call`.
     */
    function Get(url: string, schema: Option<Schema>, devMode: bool, token: TokenRead, transport: Transport): (r: GetOutcome)
      ensures r.Mocked? <==> devMode
      ensures r.Mocked? ==> r.tag == DevRoute(url)
      ensures r.Live? ==> (r.outcome.sent.Some? <==> !(hasTokenStorage && token.ReadFailed?))
      ensures r.Live? && r.outcome.sent.Some? ==> r.outcome.sent.value.verb == GET && r.outcome.sent.value.url == url && r.outcome.sent.value.data.None?
      ensures r.Live? && r.outcome.sent.Some? ==> r.outcome.sent.value.headers == InterceptedHeaders(JsonHeaders, hasTokenStorage, token).value
      ensures r.Live? && r.outcome.sent.None? ==>
        r.outcome.result == Failure(Classify(token.error)) && r.outcome.hookFired == FiresUnauthorized(token.error, hasOnUnauthorized)
      ensures r.Live? && r.outcome.sent.Some? && transport(r.outcome.sent.value).Failed? ==>
        var e := transport(r.outcome.sent.value).error;
        r.outcome.result == Failure(Classify(e)) && r.outcome.hookFired == FiresUnauthorized(e, hasOnUnauthorized)
      ensures r.Live? && r.outcome.sent.Some? && transport(r.outcome.sent.value).Answered? ==> !r.outcome.hookFired
      ensures r.Live? && r.outcome.sent.Some? && transport(r.outcome.sent.value).Answered? && schema.None? ==>
        r.outcome.result == Success(transport(r.outcome.sent.value).body)
      ensures r.Live? && r.outcome.sent.Some? && transport(r.outcome.sent.value).Answered? && schema.Some? ==>
        var check := Validate(transport(r.outcome.sent.value).body, schema.value);
        r.outcome.result == (if check.Success? then Success(check.value) else Failure(Validation(check.error)))
    {
      if devMode then Mocked(DevRoute(url))
      else Live(Finish(Send(Request(GET, url, JsonHeaders, None), token, transport), schema))
    }

    /**
     * Every request that reaches the transport carries `Authorization: Bearer <token>` with
     * the exact stored token when a storage is configured and holds a non-empty one, and
     * carries no `Authorization` header otherwise (the per-call headers never have one).
     */
    lemma BearerHeaderIff(verb: Verb, url: string, body: Json, formData: bool, schema: Option<Schema>, token: Option<string>, transport: Transport)
      requires verb != GET
      requires formData ==> verb == POST
      ensures var r := Call(verb, url, body, formData, schema, Token(token), transport);
        && r.sent.Some?
        && (AuthorizationHeader in r.sent.value.headers <==> hasTokenStorage && IsTruthy(token))
        && (AuthorizationHeader in r.sent.value.headers ==> r.sent.value.headers[AuthorizationHeader] == "Bearer " + token.value)
    {
      var headers := if formData then FormDataHeaders else JsonHeaders;
      assert AuthorizationHeader !in headers;
    }

    /** The same holds of `get` outside development mode. */
    lemma GetBearerHeaderIff(url: string, schema: Option<Schema>, token: Option<string>, transport: Transport)
      ensures var r := Get(url, schema, false, Token(token), transport);
        && r.Live? && r.outcome.sent.Some?
        && (AuthorizationHeader in r.outcome.sent.value.headers <==> hasTokenStorage && IsTruthy(token))
        && (AuthorizationHeader in r.outcome.sent.value.headers ==> r.outcome.sent.value.headers[AuthorizationHeader] == "Bearer " + token.value)
    {
      assert AuthorizationHeader !in JsonHeaders;
    }

    /**
     * A schema that rejects the body turns a successful exchange into a thrown
     * `ValidationError` with the schema's detail: the raw body is never returned.
     */
    lemma RejectedBodyNeverReturned(verb: Verb, url: string, body: Json, formData: bool, schema: Schema, token: TokenRead, transport: Transport)
      requires verb != GET
      requires formData ==> verb == POST
      ensures var r := Call(verb, url, body, formData, Some(schema), token, transport);
        r.sent.Some? && transport(r.sent.value).Answered? && schema(transport(r.sent.value).body).Invalid? ==>
          r.result == Failure(Validation(ValidationError(ValidationFailedMessage, schema(transport(r.sent.value).body).detail)))
    {
    }
  }

  // ---------------------------------------------------------------------------
  // The module-level singleton

  /** The module-level `let client: ApiClient | null`. */
  class ClientSlot {
    var client: Client?

    constructor ()
      ensures client == null
    {
      client := null;
    }

    /** `initApiClient(config)`: a new client replaces whatever was stored, and is returned. */
    method InitApiClient(config: ApiClientConfig) returns (c: Client)
      modifies this
      ensures fresh(c) && client == c
      ensures c.baseURL == config.baseURL && c.timeout == config.timeout.GetOr(DefaultTimeout)
      ensures c.withCredentials == !config.isNative
      ensures c.hasTokenStorage == config.hasTokenStorage && c.hasOnUnauthorized == config.hasOnUnauthorized
    {
      c := new Client(config);
      client := c;
    }

    /** `getApiClient()`: the stored client, or the "not initialized" error before any initialization. */
    method GetApiClient() returns (r: Result<Client, string>)
      ensures client == null ==> r == Failure(NotInitializedMessage)
      ensures client != null ==> r == Success(client)
    {
      if client == null {
        return Failure(NotInitializedMessage);
      }
      return Success(client);
    }
  }
}
