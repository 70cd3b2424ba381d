/** The backend client of `src/services/api.js`: the base address, the
    default `Authorization` header set by `setAuthToken`, the request
    interceptor that attaches the stored token, the response interceptor
    that drops the session on a 401, the `analyzeCompanyData` body and the
    `handleApiCall` fallback chain. */
module Api {
  import opened Js
  import opened Protocol
  import opened Browser

  /** The one `localStorage` key holding the session token. */
  const TokenKey := "linkify_token"
  const DefaultBaseUrl := "http://localhost:3001"
  const LoginPath := "/login"
  const AuthorizationHeader := "Authorization"
  const ContentTypeHeader := "Content-Type"
  const DefaultErrorMessage := "API call failed"
  const Unauthorized := 401

  /** `process.env.REACT_APP_API_URL || 'http://localhost:3001'`. */
  function BaseUrl(configured: Option<string>): (url: string)
    ensures Truthy(configured) ==> url == configured.value
    ensures !Truthy(configured) ==> url == DefaultBaseUrl
    ensures url != ""
  {
    OrElse(configured, DefaultBaseUrl)
  }

  /** The header value `Bearer ${token}`. */
  function Bearer(token: string): (h: string)
    ensures |h| == |token| + 7 && h[..7] == "Bearer " && h[7..] == token
  {
    "Bearer " + token
  }

  /** Distinct tokens give distinct header values. */
  lemma BearerInjective(a: string, b: string)
    requires Bearer(a) == Bearer(b)
    ensures a == b
  {
    assert a == Bearer(a)[7..];
  }

  /** `localStorage.getItem('linkify_token')`: `null` when the key is absent. */
  function StoredToken(storage: map<string, string>): (t: Option<string>)
    ensures t.Some? == (TokenKey in storage)
    ensures t.Some? ==> t.value == storage[TokenKey]
  {
    if TokenKey in storage then Some(storage[TokenKey]) else None
  }

  /** `api.defaults.headers.Authorization` after `setAuthToken(token)`: set to
      the bearer value for a truthy token, deleted otherwise. */
  function AttachedHeader(token: Option<string>): (h: Option<string>)
    ensures h.Some? == Truthy(token)
    ensures h.Some? ==> h.value == Bearer(token.value)
  {
    if Truthy(token) then Some(Bearer(token.value)) else None
  }

  /** The headers every request starts from: the JSON content type given to
      `axios.create`, and the default `Authorization` when one is attached. */
  function DefaultHeaders(authorization: Option<string>): (h: map<string, string>)
    ensures ContentTypeHeader in h && h[ContentTypeHeader] == "application/json"
    ensures (AuthorizationHeader in h) == authorization.Some?
    ensures authorization.Some? ==> h[AuthorizationHeader] == authorization.value
    ensures h.Keys <= {ContentTypeHeader, AuthorizationHeader}
  {
    var base := map[ContentTypeHeader := "application/json"];
    if authorization.Some? then base[AuthorizationHeader := authorization.value] else base
  }

  /** The request interceptor: with a truthy stored token, `Authorization`
      becomes `Bearer <token>`; otherwise the headers are left as they are. */
  function RequestHeaders(storage: map<string, string>, headers: map<string, string>): (h: map<string, string>)
    ensures Truthy(StoredToken(storage)) ==>
      h.Keys == headers.Keys + {AuthorizationHeader} && h[AuthorizationHeader] == Bearer(storage[TokenKey])
    ensures forall k :: k in headers && k != AuthorizationHeader ==> k in h && h[k] == headers[k]
    ensures !Truthy(StoredToken(storage)) ==> h == headers
  {
    var token := StoredToken(storage);
    if Truthy(token) then headers[AuthorizationHeader := Bearer(token.value)] else headers
  }

  /** Running the request interceptor twice is the same as running it once. */
  lemma RequestHeadersIdempotent(storage: map<string, string>, headers: map<string, string>)
    ensures RequestHeaders(storage, RequestHeaders(storage, headers)) == RequestHeaders(storage, headers)
  {
  }

  /** The `Authorization` a request carries, given the default header and the
      storage at the time it is sent: the stored token overrides any default. */
  lemma OutgoingAuthorization(storage: map<string, string>, authorization: Option<string>)
    ensures var h := RequestHeaders(storage, DefaultHeaders(authorization));
      if Truthy(StoredToken(storage)) then
        AuthorizationHeader in h && h[AuthorizationHeader] == Bearer(storage[TokenKey])
      else
        (AuthorizationHeader in h) == authorization.Some? &&
        (authorization.Some? ==> h[AuthorizationHeader] == authorization.value)
  {
  }

  /** The parts of an axios error the core reads: `error.response?.status`,
      `error.response?.data?.error` and `error.message`. */
  datatype HttpError = HttpError(status: Option<int>, responseError: Option<string>, message: Option<string>)

  /** The backend operations the core calls: `GET /auth/verify`,
      `POST /auth/logout` and `POST /api/analysis/comp_analysis` with its body. */
  datatype Endpoint =
    | AuthVerify
    | AuthLogout
    | CompAnalysis(body: map<string, Json>)

  /** A request as it leaves the client, after the request interceptor. */
  datatype Request = Request(endpoint: Endpoint, headers: map<string, string>)

  /** One member of a serialised object: a member whose value is `undefined`
      is dropped by the JSON serialisation. */
  function Member(name: string, value: Option<Json>): map<string, Json>
  {
    if value.Some? then map[name := value.value] else map[]
  }

  /** The body `{linkedin_url, accountDomain, domData}` of `analyzeCompanyData`
      as it is serialised. */
  function AnalyzeCompanyBody(linkedinUrl: Option<string>, accountDomain: Option<string>, domData: Option<Json>): (body: map<string, Json>)
    ensures body.Keys <= {"linkedin_url", "accountDomain", "domData"}
    ensures ("linkedin_url" in body) == linkedinUrl.Some?
    ensures ("accountDomain" in body) == accountDomain.Some?
    ensures ("domData" in body) == domData.Some?
  {
    var url := if linkedinUrl.Some? then Some(Str(linkedinUrl.value)) else None;
    var domain := if accountDomain.Some? then Some(Str(accountDomain.value)) else None;
    Member("linkedin_url", url) + Member("accountDomain", domain) + Member("domData", domData)
  }

  /** What a reader of the body finds under each of the three names. */
  function AnalyzeArguments(body: map<string, Json>): (Option<string>, Option<string>, Option<Json>)
  {
    var url := if "linkedin_url" in body && body["linkedin_url"].Str? then Some(body["linkedin_url"].s) else None;
    var domain := if "accountDomain" in body && body["accountDomain"].Str? then Some(body["accountDomain"].s) else None;
    var dom := if "domData" in body then Some(body["domData"]) else None;
    (url, domain, dom)
  }

  /** The body carries the three arguments and nothing else: reading it back
      gives them unchanged. */
  lemma AnalyzeBodyRoundTrip(linkedinUrl: Option<string>, accountDomain: Option<string>, domData: Option<Json>)
    ensures AnalyzeArguments(AnalyzeCompanyBody(linkedinUrl, accountDomain, domData)) == (linkedinUrl, accountDomain, domData)
  {
  }

  /** The outcome of the verify call: `response.data.valid` with
      `response.data.user`, or a rejected request. */
  datatype VerifyOutcome = Verified(valid: bool, user: Option<User>) | VerifyFailed(error: HttpError)

  /** Everything outside the React components that the core reads or writes:
      the window (framing, parent, `localStorage`, location, listener and post
      log) and the client (default `Authorization`, requests sent). */
  datatype Env = Env(
    framed: bool,
    hasParent: bool,
    storage: map<string, string>,
    location: string,
    events: seq<WindowEvent>,
    authorization: Option<string>,
    sent: seq<Request>)

  /** `setAuthToken(token)`: only the default header changes, and it depends
      on the token alone, so the call is idempotent. */
  function AttachToken(env: Env, token: Option<string>): (r: Env)
    ensures r.authorization == AttachedHeader(token)
    ensures r.(authorization := env.authorization) == env
  {
    env.(authorization := AttachedHeader(token))
  }

  /** Attaching the same token again changes nothing. */
  lemma AttachTokenIdempotent(env: Env, token: Option<string>)
    ensures AttachToken(AttachToken(env, token), token) == AttachToken(env, token)
  {
  }

  /** Sending a request: the request interceptor computes its headers from
      the stored token and the defaults, and the request is logged. */
  function SendRequest(env: Env, endpoint: Endpoint): (r: Env)
    ensures r.sent == env.sent + [Request(endpoint, RequestHeaders(env.storage, DefaultHeaders(env.authorization)))]
    ensures r.(sent := env.sent) == env
  {
    env.(sent := env.sent + [Request(endpoint, RequestHeaders(env.storage, DefaultHeaders(env.authorization)))])
  }

  /** The response interceptor's error branch: a 401 removes the stored token
      and sends the window to `/login`; any other error changes nothing. The
      error itself is rejected again, unchanged, to the caller. */
  function RejectResponse(env: Env, error: HttpError): (r: Env)
    ensures error.status == Some(Unauthorized) ==>
      r == env.(storage := env.storage - {TokenKey}, location := LoginPath)
    ensures error.status != Some(Unauthorized) ==> r == env
    ensures TokenKey in r.storage ==> TokenKey in env.storage && r.storage[TokenKey] == env.storage[TokenKey]
  {
    if error.status == Some(Unauthorized) then env.(storage := env.storage - {TokenKey}, location := LoginPath)
    else env
  }

  /** The shared client instance (`apiService`) over the axios instance it wraps. */
  class ApiService {
    const window: Window
    var authorization: Option<string>
    var sent: seq<Request>

    function Snapshot(): Env
      reads this, window
    {
      Env(window.framed, window.hasParent, window.storage, window.location, window.events, authorization, sent)
    }

    constructor (window: Window)
      ensures this.window == window
      ensures authorization == None && sent == []
    {
      this.window := window;
      authorization := None;
      sent := [];
    }

    method SetAuthToken(token: Option<string>)
      modifies this
      ensures Snapshot() == AttachToken(old(Snapshot()), token)
    {
      if Truthy(token) {
        authorization := Some(Bearer(token.value));
      } else {
        authorization := None;
      }
    }

    /** Issues a request through the request interceptor. */
    method Send(endpoint: Endpoint)
      modifies this
      ensures Snapshot() == SendRequest(old(Snapshot()), endpoint)
    {
      var headers := DefaultHeaders(authorization);
      var token := StoredToken(window.storage);
      if Truthy(token) {
        headers := headers[AuthorizationHeader := Bearer(token.value)];
      }
      sent := sent + [Request(endpoint, headers)];
    }

    /** The response interceptor for a failed request. */
    method Reject(error: HttpError) returns (rejected: HttpError)
      modifies window
      ensures rejected == error
      ensures Snapshot() == RejectResponse(old(Snapshot()), error)
    {
      if error.status == Some(Unauthorized) {
        window.RemoveItem(TokenKey);
        window.location := LoginPath;
      }
      rejected := error;
    }
  }

  /** What `apiCall()` does: resolve with `response.data` or reject. */
  datatype CallOutcome<T> = Resolved(data: T) | Failed(error: HttpError)

  /** `{data, error}` as `handleApiCall` returns it. */
  datatype ApiCallResult<T> = ApiCallResult(data: Option<T>, error: Option<string>)

  /** `handleApiCall(apiCall, errorMessage = 'API call failed')`; an
      `errorMessage` of `None` is an omitted argument. */
  function HandleApiCall<T>(outcome: CallOutcome<T>, errorMessage: Option<string>): (r: ApiCallResult<T>)
    ensures outcome.Resolved? ==> r == ApiCallResult(Some(outcome.data), None)
    ensures outcome.Failed? ==> r.data == None && r.error.Some?
    ensures outcome.Failed? && Truthy(outcome.error.responseError) ==> r.error == outcome.error.responseError
    ensures outcome.Failed? && !Truthy(outcome.error.responseError) && Truthy(outcome.error.message) ==>
      r.error == outcome.error.message
    ensures outcome.Failed? && !Truthy(outcome.error.responseError) && !Truthy(outcome.error.message) ==>
      r.error == Some(if errorMessage.Some? then errorMessage.value else DefaultErrorMessage)
    ensures outcome.Failed? && (errorMessage.None? || Truthy(errorMessage)) ==> r.error.value != ""
  {
    match outcome
    case Resolved(d) => ApiCallResult(Some(d), None)
    case Failed(e) =>
      var fallback := if errorMessage.Some? then errorMessage.value else DefaultErrorMessage;
      ApiCallResult(None, Some(OrElse(Or(e.responseError, e.message), fallback)))
  }
}
