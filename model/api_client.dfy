/** frontend/src/utils/axios.js: the private axios instance's interceptors (bearer
    attachment; refresh-and-retry on 401) and the error normaliser `handleApiError`.
    Network calls are inputs: the reply the server gives to a dispatched request,
    the reply of `POST /auth/refresh`, and the reply to the re-issued request. */
module ApiClient {
  import opened Wrappers
  import opened Browser

  /** The body of a server response; only its `message` field is ever read. */
  datatype Body = Body(message: Option<string>)

  datatype ServerResponse = ServerResponse(status: int, data: Body)

  /** A rejected call or thrown `Error`: `error.response` (set when the server
      answered), whether `error.request` is set (the request went out), and
      `error.message`. */
  datatype JsError = JsError(response: Option<ServerResponse>, requestSent: bool, message: string)

  /** What happens to one dispatched request: a 2xx response, or an error. */
  datatype Reply = Success(response: ServerResponse) | Failure(error: JsError)

  /** The reply to `POST /auth/refresh`: `response.data`'s `accessToken` and
      `refreshToken` (either may be missing), or the error it was rejected with. */
  datatype RefreshReply =
    | Refreshed(accessToken: Option<string>, refreshToken: Option<string>)
    | RefreshFailed(error: JsError)

  /** How the promise returned to the caller settles. */
  datatype Outcome = Resolved(response: ServerResponse) | Rejected(error: JsError)

  const AUTHORIZATION := "Authorization"
  const UNAUTHORIZED := 401

  function Bearer(token: string): string {
    "Bearer " + token
  }

  /** `error.response?.status === 401`. */
  predicate IsUnauthorized(e: JsError) {
    e.response.Some? && e.response.value.status == UNAUTHORIZED
  }

  /** The store after a successful refresh: the access token replaced, the
      refresh token replaced only when a truthy new one came back. */
  function Rotated(storage: map<string, string>, accessToken: Option<string>, refreshToken: Option<string>): (s: map<string, string>)
    ensures GetItem(s, ACCESS_TOKEN_KEY) == Some(StoredText(accessToken))
    ensures Truthy(refreshToken) ==> GetItem(s, REFRESH_TOKEN_KEY) == refreshToken
    ensures !Truthy(refreshToken) ==> GetItem(s, REFRESH_TOKEN_KEY) == GetItem(storage, REFRESH_TOKEN_KEY)
    ensures forall k :: k != ACCESS_TOKEN_KEY && k != REFRESH_TOKEN_KEY ==> GetItem(s, k) == GetItem(storage, k)
  {
    var s := storage[ACCESS_TOKEN_KEY := StoredText(accessToken)];
    if Truthy(refreshToken) then s[REFRESH_TOKEN_KEY := refreshToken.value] else s
  }

  /** An outgoing request: its headers and the `_retry` flag the response
      interceptor sets on it. */
  class Request {
    var headers: map<string, string>
    var retry: bool

    constructor (headers: map<string, string>)
      ensures this.headers == headers && !retry
    {
      this.headers := headers;
      retry := false;
    }
  }

  /** The headers after the request interceptor: `Authorization: Bearer <token>`
      exactly when an access token is stored, the headers untouched otherwise. */
  function Attached(headers: map<string, string>, storage: map<string, string>): (h: map<string, string>)
    ensures Truthy(GetItem(storage, ACCESS_TOKEN_KEY)) ==>
              AUTHORIZATION in h && h[AUTHORIZATION] == Bearer(storage[ACCESS_TOKEN_KEY])
    ensures forall k :: k != AUTHORIZATION ==> GetItem(h, k) == GetItem(headers, k)
    ensures !Truthy(GetItem(storage, ACCESS_TOKEN_KEY)) ==> h == headers
  {
    var accessToken := GetItem(storage, ACCESS_TOKEN_KEY);
    if Truthy(accessToken) then headers[AUTHORIZATION := Bearer(accessToken.value)] else headers
  }

  /** The request interceptor. */
  method InterceptRequest(w: Window, req: Request)
    modifies req
    ensures req.retry == old(req.retry)
    ensures req.headers == Attached(old(req.headers), w.storage)
  {
    var accessToken := GetItem(w.storage, ACCESS_TOKEN_KEY);
    if Truthy(accessToken) {
      req.headers := req.headers[AUTHORIZATION := Bearer(accessToken.value)];
    }
  }

  /** `axiosPrivate(req)`: the request interceptor, the server's `reply`, then
      the response interceptor. `refresh` and `resend` are what the refresh call
      and the re-issued request would get, should the interceptor make them.
      `refreshCalls` counts the calls to `POST /auth/refresh`. */
  method Dispatch(w: Window, req: Request, reply: Reply, refresh: RefreshReply, resend: Reply)
    returns (out: Outcome, refreshCalls: nat)
    modifies w, req
    decreases if req.retry then 0 else 1, 1
    ensures refreshCalls <= 1 && w.loginRedirects <= old(w.loginRedirects) + 1
    ensures old(req.retry) ==> refreshCalls == 0 && req.retry
    ensures old(req.retry) || reply.Success? ==> req.headers == Attached(old(req.headers), old(w.storage))
    ensures reply.Success? ==>
              out == Resolved(reply.response) && refreshCalls == 0 && req.retry == old(req.retry)
              && w.storage == old(w.storage) && w.loginRedirects == old(w.loginRedirects) && w.href == old(w.href)
    ensures reply.Failure? && (old(req.retry) || !IsUnauthorized(reply.error)) ==>
              out == Rejected(reply.error) && refreshCalls == 0 && req.retry == old(req.retry)
              && w.storage == old(w.storage) && w.loginRedirects == old(w.loginRedirects) && w.href == old(w.href)
    ensures reply.Failure? && IsUnauthorized(reply.error) && !old(req.retry) ==>
              req.retry && RefreshEffect(old(w.storage), old(w.loginRedirects), old(w.href), refresh, resend, w, out, refreshCalls)
    ensures reply.Failure? && IsUnauthorized(reply.error) && !old(req.retry) && !Truthy(GetItem(old(w.storage), REFRESH_TOKEN_KEY)) ==>
              out == Rejected(reply.error)
  {
    InterceptRequest(w, req);
    match reply
    case Success(response) =>
      out, refreshCalls := Resolved(response), 0;
    case Failure(error) =>
      out, refreshCalls := InterceptResponseError(w, req, error, refresh, resend);
  }

  /** What the refresh path does, from the store, redirect count and location
      before it: no refresh token — the original error comes back untouched
      (stated by the callers); refresh rejected — both tokens removed, one
      redirect to `/login`, the refresh error rejected; refresh resolved — tokens
      rotated and the re-issued request's own result returned, with no redirect. */
  ghost predicate RefreshEffect(storage: map<string, string>, redirects: nat, href: string,
                                refresh: RefreshReply, resend: Reply, w: Window, out: Outcome, refreshCalls: nat)
    reads w
  {
    && (!Truthy(GetItem(storage, REFRESH_TOKEN_KEY)) ==>
          refreshCalls == 0 && w.storage == storage && w.loginRedirects == redirects && w.href == href)
    && (Truthy(GetItem(storage, REFRESH_TOKEN_KEY)) && refresh.RefreshFailed? ==>
          refreshCalls == 1 && out == Rejected(refresh.error)
          && w.storage == storage - {ACCESS_TOKEN_KEY, REFRESH_TOKEN_KEY}
          && w.loginRedirects == redirects + 1 && w.href == LOGIN_PATH)
    && (Truthy(GetItem(storage, REFRESH_TOKEN_KEY)) && refresh.Refreshed? ==>
          refreshCalls == 1
          && w.storage == Rotated(storage, refresh.accessToken, refresh.refreshToken)
          && w.loginRedirects == redirects && w.href == href
          && out == (if resend.Success? then Resolved(resend.response) else Rejected(resend.error)))
  }

  /** The response interceptor's error handler. A 401 on a request not yet
      marked is marked `_retry` before anything else; then, if a refresh token
      is stored, exactly one refresh is attempted. */
  method InterceptResponseError(w: Window, req: Request, err: JsError, refresh: RefreshReply, resend: Reply)
    returns (out: Outcome, refreshCalls: nat)
    modifies w, req
    decreases if req.retry then 0 else 1, 0
    ensures refreshCalls <= 1 && w.loginRedirects <= old(w.loginRedirects) + 1
    ensures old(req.retry) ==> refreshCalls == 0 && req.retry
    ensures old(req.retry) || !IsUnauthorized(err) ==>
              out == Rejected(err) && refreshCalls == 0
              && req.retry == old(req.retry) && req.headers == old(req.headers)
              && w.storage == old(w.storage) && w.loginRedirects == old(w.loginRedirects) && w.href == old(w.href)
    ensures IsUnauthorized(err) && !old(req.retry) ==>
              req.retry && RefreshEffect(old(w.storage), old(w.loginRedirects), old(w.href), refresh, resend, w, out, refreshCalls)
    ensures IsUnauthorized(err) && !old(req.retry) && !Truthy(GetItem(old(w.storage), REFRESH_TOKEN_KEY)) ==>
              out == Rejected(err)
    ensures IsUnauthorized(err) && !old(req.retry) && Truthy(GetItem(old(w.storage), REFRESH_TOKEN_KEY)) && refresh.Refreshed? ==>
              AUTHORIZATION in req.headers && req.headers[AUTHORIZATION] == Bearer(StoredText(refresh.accessToken))
  {
    refreshCalls := 0;
    if IsUnauthorized(err) && !req.retry {
      req.retry := true;
      var refreshToken := GetItem(w.storage, REFRESH_TOKEN_KEY);
      if Truthy(refreshToken) {
        refreshCalls := 1;
        match refresh
        case RefreshFailed(refreshError) =>
          w.RemoveItem(ACCESS_TOKEN_KEY);
          w.RemoveItem(REFRESH_TOKEN_KEY);
          w.RedirectToLogin();
          return Rejected(refreshError), refreshCalls;
        case Refreshed(accessToken, newRefreshToken) =>
          w.SetItem(ACCESS_TOKEN_KEY, StoredText(accessToken));
          if Truthy(newRefreshToken) {
            w.SetItem(REFRESH_TOKEN_KEY, newRefreshToken.value);
          }
          req.headers := req.headers[AUTHORIZATION := Bearer(StoredText(accessToken))];
          // The re-issued request is returned without `await`: its rejection
          // settles the caller's promise directly and never reaches the catch.
          var again, nested := Dispatch(w, req, resend, refresh, resend);
          return again, refreshCalls;
      }
    }
    return Rejected(err), refreshCalls;
  }

  /** `handleApiError`'s result: `{message, status, data}`. */
  datatype ApiError = ApiError(message: string, status: int, data: Option<Body>)

  const SERVER_ERROR_MESSAGE := "Server error occurred"
  const NETWORK_ERROR_MESSAGE := "Network error. Please check your connection."
  const UNEXPECTED_ERROR_MESSAGE := "An unexpected error occurred"

  /** `handleApiError`: server answered — its message (or a fallback), status
      and body; request sent but unanswered — status 0; anything else — status -1. */
  function HandleApiError(e: JsError): (r: ApiError)
    ensures r.message != ""
    ensures e.response.Some? ==> r.status == e.response.value.status && r.data == Some(e.response.value.data)
    ensures e.response.None? ==> r.data == None
    ensures e.response.None? && e.requestSent ==> r.status == 0 && r.message == NETWORK_ERROR_MESSAGE
    ensures e.response.None? && !e.requestSent ==> r.status == -1
    ensures e.response.Some? ==>
              r.message == if Truthy(e.response.value.data.message) then e.response.value.data.message.value
                           else SERVER_ERROR_MESSAGE
    ensures e.response.None? && !e.requestSent ==>
              r.message == if e.message != "" then e.message else UNEXPECTED_ERROR_MESSAGE
  {
    match e.response
    case Some(resp) =>
      ApiError(if Truthy(resp.data.message) then resp.data.message.value else SERVER_ERROR_MESSAGE,
               resp.status, Some(resp.data))
    case None =>
      if e.requestSent then ApiError(NETWORK_ERROR_MESSAGE, 0, None)
      else ApiError(if e.message != "" then e.message else UNEXPECTED_ERROR_MESSAGE, -1, None)
  }

  /** With real HTTP status codes (100–599) the normalised status alone tells the
      three kinds of failure apart. */
  lemma ErrorKindFromStatus(e: JsError)
    requires e.response.Some? ==> 100 <= e.response.value.status <= 599
    ensures HandleApiError(e).status >= 100 <==> e.response.Some?
    ensures HandleApiError(e).status == 0 <==> e.response.None? && e.requestSent
    ensures HandleApiError(e).status == -1 <==> e.response.None? && !e.requestSent
  {
  }
}
