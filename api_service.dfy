/** The front end's request layer (surge/src/services/api.js): the
    authorisation headers built from the stored token, the URL and the
    request options handed to `fetch`, how a response becomes a value or an
    error message, and the table of endpoints. `fetch` itself is a
    parameter. */
module ApiService {
  import opened Wrappers
  import opened JsText

  const DefaultBaseUrl := "http://localhost:8000"

  type Headers = map<string, string>

  /** A value in a request-options object: a string (`method`, `body`) or a
      headers object. */
  datatype OptionValue = Text(text: string) | HeaderSet(headers: Headers)

  /** A request-options object, key by key. */
  type Options = map<string, OptionValue>

  /** A response body: not JSON, or a JSON object (string-valued fields). */
  datatype Body = Unparsable | Parsed(doc: map<string, string>)

  /** What `fetch` yields: a response, or a rejection (network failure). */
  datatype FetchOutcome = Responded(ok: bool, status: nat, body: Body) | FetchRejected(reason: string)

  /** What `apiRequest` throws. */
  datatype ApiError =
    | HttpError(message: string)    // the Error built from a non-ok response
    | MalformedBody                 // an ok response whose body is not JSON
    | FetchFailed(reason: string)   // the rejection of fetch itself, rethrown

  /** `API_BASE_URL`: REACT_APP_API_URL when it is set and not empty. */
  function BaseUrl(setting: Option<string>): (r: string)
    ensures Truthy(setting) ==> r == setting.value
    ensures !Truthy(setting) ==> r == DefaultBaseUrl
  {
    OrElse(setting, DefaultBaseUrl)
  }

  /** `getAuthHeaders`, given what localStorage holds under `authToken`. */
  function AuthHeaders(token: Option<string>): (h: Headers)
    ensures "Content-Type" in h && h["Content-Type"] == "application/json"
    ensures "Authorization" in h <==> Truthy(token)
    ensures "Authorization" in h ==> h["Authorization"] == "Bearer " + token.value
    ensures h.Keys <= {"Content-Type", "Authorization"}
  {
    var base := map["Content-Type" := "application/json"];
    if Truthy(token) then base["Authorization" := "Bearer " + token.value] else base
  }

  /** The token a receiver reads back out of a bearer `Authorization` header. */
  function BearerToken(h: Headers): Option<string> {
    if "Authorization" in h && |h["Authorization"]| >= 7 && h["Authorization"][..7] == "Bearer "
    then Some(h["Authorization"][7..])
    else None
  }

  /** The headers carry exactly the stored token when it is truthy, and none
      otherwise. */
  lemma AuthHeadersCarryToken(token: Option<string>)
    ensures BearerToken(AuthHeaders(token)) == if Truthy(token) then token else None
  {
    if Truthy(token) {
      var v := "Bearer " + token.value;
      assert v[..7] == "Bearer " && v[7..] == token.value;
    }
  }

  /** The URL `apiRequest` fetches. */
  function RequestUrl(base: string, endpoint: string): (url: string)
    ensures |url| == |base| + |endpoint|
    ensures url[..|base|] == base && url[|base|..] == endpoint
  {
    base + endpoint
  }

  /** `{ headers: getAuthHeaders(), ...options }`: the caller's keys are
      spread over the default headers, so a caller's `headers` replaces the
      authorisation headers as a whole. */
  function RequestConfig(token: Option<string>, options: Options): (config: Options)
    ensures config.Keys == options.Keys + {"headers"}
    ensures forall k :: k in options ==> config[k] == options[k]
    ensures "headers" !in options ==> config["headers"] == HeaderSet(AuthHeaders(token))
  {
    map["headers" := HeaderSet(AuthHeaders(token))] + options
  }

  /** The method `fetch` uses for a configuration: GET unless one is given. */
  function HttpMethod(config: Options): string {
    if "method" in config && config["method"].Text? then config["method"].text else "GET"
  }

  /** The message of the Error thrown for a non-ok response: the body's
      `message` when it is truthy, `HTTP <status>` otherwise, and
      "Network error" when the body is not JSON. */
  function ErrorMessage(status: nat, body: Body): string {
    var error := if body.Unparsable? then map["message" := "Network error"] else body.doc;
    if "message" in error && error["message"] != "" then error["message"]
    else "HTTP " + DecimalString(status)
  }

  /** The three sources of the message. */
  lemma ErrorMessageSources(status: nat, body: Body)
    ensures body.Unparsable? ==> ErrorMessage(status, body) == "Network error"
    ensures body.Parsed? && "message" in body.doc && body.doc["message"] != "" ==>
      ErrorMessage(status, body) == body.doc["message"]
    ensures body.Parsed? && ("message" !in body.doc || body.doc["message"] == "") ==>
      ErrorMessage(status, body) == "HTTP " + DecimalString(status)
  {
  }

  /** Without a message in the body the status can be read back from the
      error message. */
  lemma FallbackMessageNamesStatus(status: nat, doc: map<string, string>)
    requires "message" !in doc || doc["message"] == ""
    ensures var m := ErrorMessage(status, Parsed(doc));
      |m| > 5 && m[..5] == "HTTP " && AllDigits(m[5..]) && ParseDecimal(m[5..]) == status
  {
    var m := ErrorMessage(status, Parsed(doc));
    assert m[5..] == DecimalString(status);
    DecimalRoundTrip(status);
  }

  /** How `apiRequest` settles for what `fetch` yielded: an ok response gives
      its parsed body unchanged; a non-ok one throws with `ErrorMessage`; a
      rejection of `fetch` is rethrown. */
  predicate Settles(outcome: FetchOutcome, result: Result<map<string, string>, ApiError>) {
    match outcome
    case FetchRejected(reason) => result == Failure(FetchFailed(reason))
    case Responded(ok, status, body) =>
      if !ok then result == Failure(HttpError(ErrorMessage(status, body)))
      else if body.Unparsable? then result == Failure(MalformedBody)
      else result == Success(body.doc)
  }

  /** `apiRequest(endpoint, options)`, reading the token from `token` and
      calling `fetch`. */
  method ApiRequest(base: string, token: Option<string>, endpoint: string, options: Options,
                    fetch: (string, Options) -> FetchOutcome)
    returns (result: Result<map<string, string>, ApiError>)
    ensures Settles(fetch(RequestUrl(base, endpoint), RequestConfig(token, options)), result)
  {
    var url := base + endpoint;
    var config := map["headers" := HeaderSet(AuthHeaders(token))] + options;
    var response := fetch(url, config);
    if response.FetchRejected? {
      return Failure(FetchFailed(response.reason));
    }
    if !response.ok {
      var error := if response.body.Parsed? then response.body.doc else map["message" := "Network error"];
      var message := if "message" in error && error["message"] != "" then error["message"]
                     else "HTTP " + DecimalString(response.status);
      return Failure(HttpError(message));
    }
    if response.body.Unparsable? {
      return Failure(MalformedBody);
    }
    result := Success(response.body.doc);
  }

  /** The calls of the `api` object; each argument is already in its
      JSON-serialised form. */
  datatype Call =
    | Health
    | Login(credentials: string)
    | Signup(userData: string)
    | Logout
    | GeneratePlan(payload: string)

  function Path(call: Call): string {
    match call
    case Health => "/"
    case Login(_) => "/auth/login"
    case Signup(_) => "/auth/signup"
    case Logout => "/auth/logout"
    case GeneratePlan(_) => "/plan"
  }

  function CallOptions(call: Call): (options: Options)
    ensures "headers" !in options
    ensures options.Keys <= {"method", "body"}
    ensures HttpMethod(options) == if call.Health? then "GET" else "POST"
    ensures "body" in options <==> call.Login? || call.Signup? || call.GeneratePlan?
  {
    match call
    case Health => map[]
    case Login(credentials) => map["method" := Text("POST"), "body" := Text(credentials)]
    case Signup(userData) => map["method" := Text("POST"), "body" := Text(userData)]
    case Logout => map["method" := Text("POST")]
    case GeneratePlan(payload) => map["method" := Text("POST"), "body" := Text(payload)]
  }

  /** The endpoint table: each call's method, path and body. */
  lemma EndpointTable(call: Call)
    ensures call.Health? ==> Path(call) == "/" && CallOptions(call) == map[]
    ensures call.Login? ==> Path(call) == "/auth/login" && CallOptions(call)["body"] == Text(call.credentials)
    ensures call.Signup? ==> Path(call) == "/auth/signup" && CallOptions(call)["body"] == Text(call.userData)
    ensures call.Logout? ==> Path(call) == "/auth/logout" && "body" !in CallOptions(call)
    ensures call.GeneratePlan? ==> Path(call) == "/plan" && CallOptions(call)["body"] == Text(call.payload)
    ensures call != Health ==> HttpMethod(CallOptions(call)) == "POST"
  {
  }

  /** Different calls go to different paths unless they are the same kind. */
  lemma PathsDistinguishCalls(a: Call, b: Call)
    requires Path(a) == Path(b)
    ensures a.Health? == b.Health? && a.Login? == b.Login? && a.Signup? == b.Signup?
    ensures a.Logout? == b.Logout? && a.GeneratePlan? == b.GeneratePlan?
  {
    assert "/"[0] == '/';
    assert "/auth/login"[6] == 'l' && "/auth/signup"[6] == 's';
  }

  /** Since no call of the `api` object passes `headers`, every call sends the
      authorisation headers of the stored token, with its own method and
      body kept. */
  lemma EveryCallIsAuthorised(call: Call, token: Option<string>)
    ensures var config := RequestConfig(token, CallOptions(call));
      && config["headers"] == HeaderSet(AuthHeaders(token))
      && HttpMethod(config) == HttpMethod(CallOptions(call))
      && ("body" in config <==> "body" in CallOptions(call))
  {
  }

  /** A caller's `headers` option wins over the defaults: the token is not
      sent unless the caller's headers carry it. */
  lemma CallerHeadersReplaceAuth(token: Option<string>, options: Options, h: Headers)
    requires "headers" in options && options["headers"] == HeaderSet(h)
    ensures RequestConfig(token, options)["headers"] == HeaderSet(h)
    ensures BearerToken(RequestConfig(token, options)["headers"].headers) == BearerToken(h)
  {
  }

  /** `api.*`: `apiRequest` on the call's path and options. */
  method Invoke(base: string, token: Option<string>, call: Call, fetch: (string, Options) -> FetchOutcome)
    returns (result: Result<map<string, string>, ApiError>)
    ensures Settles(fetch(RequestUrl(base, Path(call)), RequestConfig(token, CallOptions(call))), result)
  {
    result := ApiRequest(base, token, Path(call), CallOptions(call), fetch);
  }
}
