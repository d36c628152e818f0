/**
 * `apiFetch` and the `api.*` helpers of lib/api/client.ts: how a request is
 * built from a path and a configuration, and how the reply of `fetch` (or the
 * exception it throws) becomes either a response or an `ApiClientError`.
 *
 * `fetch` itself, body parsing and the `onUnauthorized` callback are outside
 * the model: their outcomes are parameters.
 */
module ApiClient {
  import opened Js
  import opened Text
  import opened Wrappers

  /** A request body: none, a JSON text, or a `FormData` instance (whose fields the client never reads). */
  datatype Body = NoBody | JsonBody(text: string) | FormDataBody

  /**
   * `RequestConfig`: the `RequestInit` fields the client passes through
   * (method, body, headers) plus the client's own `accessToken` and
   * `onUnauthorized` options. `onUnauthorized` records only whether a handler
   * was given.
   */
  datatype RequestConfig = RequestConfig(
    httpMethod: Option<string>,
    body: Body,
    headers: map<string, string>,
    accessToken: Option<string>,
    onUnauthorized: bool)

  /** The empty configuration `{}`. */
  const EmptyConfig := RequestConfig(None, NoBody, map[], None, false)

  /** What reaches `fetch`: the URL and the init object. The init type has no place for the client's own options. */
  datatype FetchRequest = FetchRequest(url: string, httpMethod: Option<string>, body: Body, headers: map<string, string>)

  /** The error class every failure of `apiFetch` is reported as. */
  datatype ApiClientError = ApiClientError(message: string, status: int, statusText: string, data: JsValue)

  /** A value thrown by `fetch`, by body parsing or by the `onUnauthorized` handler. */
  datatype Thrown = ThrownError(message: string) | ThrownClientError(error: ApiClientError) | ThrownOther

  /** What `fetch` did: it answered (and reading the body either gave a value or threw), or it threw. */
  datatype FetchReply =
    | Responded(status: int, statusText: string, body: Result<JsValue, Thrown>)
    | FetchThrew(thrown: Thrown)

  /** `ApiResponse<T>`. */
  datatype ApiResponse = ApiResponse(data: JsValue, status: int, statusText: string)

  /** One call of `apiFetch`: the request sent, whether `onUnauthorized` was awaited, and the outcome. */
  datatype ApiFetchRun = ApiFetchRun(request: FetchRequest, awaitedOnUnauthorized: bool, result: Result<ApiResponse, ApiClientError>)

  const ContentType := "Content-Type"
  const Authorization := "Authorization"
  const JsonMediaType := "application/json"

  /** `Response.ok`. */
  predicate IsOk(status: int) {
    200 <= status <= 299
  }

  /** The token is set and non-empty, so that `if (accessToken)` holds. */
  predicate HasToken(token: Option<string>) {
    token.Some? && token.value != ""
  }

  /** The URL `fetch` receives: an absolute "http…" path as is, otherwise the base URL followed by the path. */
  function RequestUrl(baseUrl: string, path: string): (url: string)
    ensures |url| >= |path| && url[|url| - |path|..] == path
    ensures url == path <==> StartsWith(path, "http") || baseUrl == ""
    ensures !StartsWith(path, "http") ==> StartsWith(url, baseUrl)
  {
    if StartsWith(path, "http") then path else baseUrl + path
  }

  /**
   * The headers `fetch` receives: the caller's headers, with Content-Type
   * forced to JSON unless the body is form data, and a Bearer Authorization
   * header (section 2.1 of RFC 6750) when a token is present.
   */
  function RequestHeaders(config: RequestConfig): (h: map<string, string>)
    ensures !config.body.FormDataBody? ==> ContentType in h && h[ContentType] == JsonMediaType
    ensures config.body.FormDataBody? ==>
      (ContentType in h <==> ContentType in config.headers) &&
      (ContentType in h ==> h[ContentType] == config.headers[ContentType])
    ensures HasToken(config.accessToken) ==> Authorization in h && h[Authorization] == "Bearer " + config.accessToken.value
    ensures !HasToken(config.accessToken) ==>
      (Authorization in h <==> Authorization in config.headers) &&
      (Authorization in h ==> h[Authorization] == config.headers[Authorization])
    ensures forall k | k in config.headers && k != ContentType && k != Authorization :: k in h && h[k] == config.headers[k]
    ensures forall k | k in h :: k in config.headers || k == ContentType || k == Authorization
  {
    var withType := if config.body.FormDataBody? then config.headers else config.headers[ContentType := JsonMediaType];
    if HasToken(config.accessToken) then withType[Authorization := "Bearer " + config.accessToken.value] else withType
  }

  /** The configuration `{ method: "GET" }` of the plain reads. */
  const GetConfig := RequestConfig(Some("GET"), NoBody, map[], None, false)

  /** The request `apiFetch` hands to `fetch`. */
  function BuildRequest(baseUrl: string, path: string, config: RequestConfig): FetchRequest {
    FetchRequest(RequestUrl(baseUrl, path), config.httpMethod, config.body, RequestHeaders(config))
  }

  /** The `catch` of `apiFetch`: client errors pass through, other errors become status-0 errors. */
  function WrapThrown(t: Thrown): (e: ApiClientError)
    ensures t.ThrownClientError? ==> e == t.error
    ensures t.ThrownError? ==> e == ApiClientError(t.message, 0, "Network Error", Undefined)
    ensures t.ThrownOther? ==> e == ApiClientError("Unknown error", 0, "Unknown Error", Undefined)
  {
    match t
    case ThrownClientError(err) => err
    case ThrownError(m) => ApiClientError(m, 0, "Network Error", Undefined)
    case ThrownOther => ApiClientError("Unknown error", 0, "Unknown Error", Undefined)
  }

  /**
   * `apiFetch(path, config)` against a `fetch` that behaves as `reply`; the
   * `onUnauthorized` handler, when awaited, either completes (`None`) or
   * throws `handlerThrew`.
   */
  function ApiFetch(baseUrl: string, path: string, config: RequestConfig, reply: FetchReply, handlerThrew: Option<Thrown>): (run: ApiFetchRun)
    ensures run.request == BuildRequest(baseUrl, path, config)
    ensures run.awaitedOnUnauthorized <==> reply.Responded? && reply.status == 401 && config.onUnauthorized
    ensures run.result.Ok? <==>
      reply.Responded? && IsOk(reply.status) && reply.body.Ok? && !(run.awaitedOnUnauthorized && handlerThrew.Some?)
    ensures run.result.Ok? ==> run.result.value == ApiResponse(reply.body.value, reply.status, reply.statusText)
    ensures reply.Responded? && !IsOk(reply.status) && reply.body.Ok? && !(run.awaitedOnUnauthorized && handlerThrew.Some?) ==>
      run.result == Err(ApiClientError("API request failed: " + reply.statusText, reply.status, reply.statusText, reply.body.value))
    ensures reply.FetchThrew? ==> run.result == Err(WrapThrown(reply.thrown))
  {
    var request := BuildRequest(baseUrl, path, config);
    match reply
    case FetchThrew(t) => ApiFetchRun(request, false, Err(WrapThrown(t)))
    case Responded(status, statusText, body) =>
      var awaited := status == 401 && config.onUnauthorized;
      if awaited && handlerThrew.Some? then
        ApiFetchRun(request, true, Err(WrapThrown(handlerThrew.value)))
      else
        match body
        case Err(t) => ApiFetchRun(request, awaited, Err(WrapThrown(t)))
        case Ok(data) =>
          if !IsOk(status) then
            ApiFetchRun(request, awaited, Err(ApiClientError("API request failed: " + statusText, status, statusText, data)))
          else
            ApiFetchRun(request, awaited, Ok(ApiResponse(data, status, statusText)))
  }

  /** A failed `apiFetch` is always reported as an `ApiClientError`, and a status-0 one never comes from a real reply. */
  lemma ErrorStatusZeroOnlyWithoutReply(baseUrl: string, path: string, config: RequestConfig, reply: FetchReply, handlerThrew: Option<Thrown>)
    requires reply.FetchThrew? ==> !reply.thrown.ThrownClientError?
    requires reply.Responded? ==> reply.status != 0 && (reply.body.Err? ==> !reply.body.error.ThrownClientError?)
    requires handlerThrew.Some? ==> !handlerThrew.value.ThrownClientError?
    ensures var run := ApiFetch(baseUrl, path, config, reply, handlerThrew);
      run.result.Err? && run.result.error.status == 0 <==>
        reply.FetchThrew? || (reply.Responded? && (reply.body.Err? || (run.awaitedOnUnauthorized && handlerThrew.Some?)))
  {
  }

  /** The HTTP verbs of the `api` helper object. */
  datatype Verb = GET | POST | PUT | PATCH | DELETE

  function VerbName(v: Verb): string {
    match v
    case GET => "GET"
    case POST => "POST"
    case PUT => "PUT"
    case PATCH => "PATCH"
    case DELETE => "DELETE"
  }

  /**
   * The configuration an `api.<verb>(url, data, config)` call passes to
   * `apiFetch`: the verb as method, and for POST, PUT and PATCH a JSON body
   * only when `data` is truthy (`stringify` is `JSON.stringify`).
   */
  function HelperConfig(verb: Verb, data: JsValue, config: RequestConfig, stringify: JsValue -> string): (c: RequestConfig)
    ensures c.httpMethod == Some(VerbName(verb))
    ensures c.headers == config.headers && c.accessToken == config.accessToken && c.onUnauthorized == config.onUnauthorized
    ensures (verb.GET? || verb.DELETE?) ==> c.body == config.body
    ensures (verb.POST? || verb.PUT? || verb.PATCH?) ==>
      (c.body.JsonBody? <==> Truthy(data)) && (Truthy(data) ==> c.body == JsonBody(stringify(data))) && (!Truthy(data) ==> c.body == NoBody)
  {
    var withMethod := config.(httpMethod := Some(VerbName(verb)));
    if verb.GET? || verb.DELETE? then withMethod
    else withMethod.(body := if Truthy(data) then JsonBody(stringify(data)) else NoBody)
  }
}
