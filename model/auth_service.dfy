/** frontend/src/services/authService.js: the session operations over the
    token store. Server replies are inputs; `atob` + `JSON.parse` of the token
    payload is the parameter `decode`. */
module AuthService {
  import opened Wrappers
  import opened Browser
  import opened ApiClient
  import opened UserJson
  import opened Text

  /** The body of a successful `/auth/login` or `/auth/register` call
      (`user`, `accessToken`, `refreshToken`, any of which may be missing), or
      the error the call was rejected with. */
  datatype SessionReply =
    | SessionIssued(user: Option<Profile>, accessToken: Option<string>, refreshToken: Option<string>)
    | SessionRefused(error: JsError)

  const NO_REFRESH_TOKEN_MESSAGE := "No refresh token available"

  /** The store after a session is issued: both tokens written as given. */
  function WithSession(storage: map<string, string>, accessToken: Option<string>, refreshToken: Option<string>): (s: map<string, string>)
    ensures GetItem(s, ACCESS_TOKEN_KEY) == Some(StoredText(accessToken))
    ensures GetItem(s, REFRESH_TOKEN_KEY) == Some(StoredText(refreshToken))
    ensures forall k :: k != ACCESS_TOKEN_KEY && k != REFRESH_TOKEN_KEY ==> GetItem(s, k) == GetItem(storage, k)
  {
    storage[ACCESS_TOKEN_KEY := StoredText(accessToken)][REFRESH_TOKEN_KEY := StoredText(refreshToken)]
  }

  /** The store with both tokens removed. */
  function WithoutTokens(storage: map<string, string>): (s: map<string, string>)
    ensures ACCESS_TOKEN_KEY !in s && REFRESH_TOKEN_KEY !in s
    ensures forall k :: k != ACCESS_TOKEN_KEY && k != REFRESH_TOKEN_KEY ==> GetItem(s, k) == GetItem(storage, k)
  {
    storage - {ACCESS_TOKEN_KEY, REFRESH_TOKEN_KEY}
  }

  /** The store with the cached user and both tokens removed. */
  function Cleared(storage: map<string, string>): (s: map<string, string>)
    ensures USER_KEY !in s && ACCESS_TOKEN_KEY !in s && REFRESH_TOKEN_KEY !in s
    ensures forall k :: k != USER_KEY && k != ACCESS_TOKEN_KEY && k != REFRESH_TOKEN_KEY ==> GetItem(s, k) == GetItem(storage, k)
  {
    storage - {USER_KEY, ACCESS_TOKEN_KEY, REFRESH_TOKEN_KEY}
  }

  /** Shared by `login` and `register`: a refused call rethrows before any
      write; an issued session writes both tokens and yields `{success, user}`. */
  method AcceptSession(w: Window, reply: SessionReply) returns (r: Result<Option<Profile>, JsError>)
    modifies w
    ensures reply.SessionRefused? ==> r == Err(reply.error) && w.storage == old(w.storage)
    ensures reply.SessionIssued? ==>
              r == Ok(reply.user) && w.storage == WithSession(old(w.storage), reply.accessToken, reply.refreshToken)
    ensures w.href == old(w.href) && w.loginRedirects == old(w.loginRedirects)
  {
    match reply
    case SessionRefused(error) =>
      return Err(error);
    case SessionIssued(user, accessToken, refreshToken) =>
      w.SetItem(ACCESS_TOKEN_KEY, StoredText(accessToken));
      w.SetItem(REFRESH_TOKEN_KEY, StoredText(refreshToken));
      return Ok(user);
  }

  /** `login(credentials)`: `reply` is the server's answer to `POST /auth/login`. */
  method Login(w: Window, reply: SessionReply) returns (r: Result<Option<Profile>, JsError>)
    modifies w
    ensures reply.SessionRefused? ==> r == Err(reply.error) && w.storage == old(w.storage)
    ensures reply.SessionIssued? ==>
              r == Ok(reply.user) && w.storage == WithSession(old(w.storage), reply.accessToken, reply.refreshToken)
    ensures w.href == old(w.href) && w.loginRedirects == old(w.loginRedirects)
  {
    r := AcceptSession(w, reply);
  }

  /** `register(userData)`: `reply` is the server's answer to `POST /auth/register`. */
  method Register(w: Window, reply: SessionReply) returns (r: Result<Option<Profile>, JsError>)
    modifies w
    ensures reply.SessionRefused? ==> r == Err(reply.error) && w.storage == old(w.storage)
    ensures reply.SessionIssued? ==>
              r == Ok(reply.user) && w.storage == WithSession(old(w.storage), reply.accessToken, reply.refreshToken)
    ensures w.href == old(w.href) && w.loginRedirects == old(w.loginRedirects)
  {
    r := AcceptSession(w, reply);
  }

  /** A reply that sends the private client down its refresh path. */
  predicate Unauthorized(reply: Reply) {
    reply.Failure? && IsUnauthorized(reply.error)
  }

  /** `logout()`: `POST /auth/logout` through the private client, only when a
      refresh token is stored; `reply`, `refresh` and `resend` are what that
      call, a refresh and the re-issued call would get. A 401 takes the
      client's refresh path: a rejected refresh redirects to `/login`, a
      resolved one rotates the tokens and re-sends the call. Whatever comes
      back is caught, then both tokens are removed and nothing is thrown; the
      cached user is kept. `serverCalls` counts the calls made. */
  method Logout(w: Window, reply: Reply, refresh: RefreshReply, resend: Reply) returns (serverCalls: nat)
    modifies w
    ensures w.storage == WithoutTokens(old(w.storage))
    ensures !Truthy(GetItem(old(w.storage), REFRESH_TOKEN_KEY)) ==>
              serverCalls == 0 && w.href == old(w.href) && w.loginRedirects == old(w.loginRedirects)
    ensures Truthy(GetItem(old(w.storage), REFRESH_TOKEN_KEY)) && !Unauthorized(reply) ==>
              serverCalls == 1 && w.href == old(w.href) && w.loginRedirects == old(w.loginRedirects)
    ensures Truthy(GetItem(old(w.storage), REFRESH_TOKEN_KEY)) && Unauthorized(reply) && refresh.RefreshFailed? ==>
              serverCalls == 2 && w.href == LOGIN_PATH && w.loginRedirects == old(w.loginRedirects) + 1
    ensures Truthy(GetItem(old(w.storage), REFRESH_TOKEN_KEY)) && Unauthorized(reply) && refresh.Refreshed? ==>
              serverCalls == 3 && w.href == old(w.href) && w.loginRedirects == old(w.loginRedirects)
  {
    serverCalls := 0;
    var refreshToken := GetItem(w.storage, REFRESH_TOKEN_KEY);
    if Truthy(refreshToken) {
      var req := new Request(map[]);
      // A rejection is caught and logged; only its calls and redirect remain.
      var out, refreshCalls := Dispatch(w, req, reply, refresh, resend);
      serverCalls := 1 + refreshCalls + (if refreshCalls == 1 && refresh.Refreshed? then 1 else 0);
    }
    ghost var between := w.storage;
    w.RemoveItem(ACCESS_TOKEN_KEY);
    w.RemoveItem(REFRESH_TOKEN_KEY);
    assert w.storage == WithoutTokens(between);
    WithoutTokensAfterRotation(old(w.storage), between);
  }

  /** Removing both tokens forgets any earlier token write or removal. */
  lemma WithoutTokensAfterRotation(storage: map<string, string>, s: map<string, string>)
    requires forall k :: k != ACCESS_TOKEN_KEY && k != REFRESH_TOKEN_KEY ==> GetItem(s, k) == GetItem(storage, k)
    ensures WithoutTokens(s) == WithoutTokens(storage)
  {
    var a, b := WithoutTokens(s), WithoutTokens(storage);
    forall k | k in a ensures k in b && a[k] == b[k] {
      assert GetItem(s, k) == GetItem(storage, k);
    }
    forall k | k in b ensures k in a {
      assert GetItem(s, k) == GetItem(storage, k);
    }
  }

  /** `refreshToken()`: with no stored refresh token it throws
      `'No refresh token available'`; any failure clears both tokens before
      rethrowing; success rotates the tokens and returns the new access token. */
  method RefreshToken(w: Window, reply: RefreshReply) returns (r: Result<Option<string>, JsError>)
    modifies w
    ensures !Truthy(GetItem(old(w.storage), REFRESH_TOKEN_KEY)) ==>
              r == Err(JsError(None, false, NO_REFRESH_TOKEN_MESSAGE)) && w.storage == WithoutTokens(old(w.storage))
    ensures Truthy(GetItem(old(w.storage), REFRESH_TOKEN_KEY)) && reply.RefreshFailed? ==>
              r == Err(reply.error) && w.storage == WithoutTokens(old(w.storage))
    ensures Truthy(GetItem(old(w.storage), REFRESH_TOKEN_KEY)) && reply.Refreshed? ==>
              r == Ok(reply.accessToken) && w.storage == Rotated(old(w.storage), reply.accessToken, reply.refreshToken)
    ensures w.href == old(w.href) && w.loginRedirects == old(w.loginRedirects)
  {
    var refreshToken := GetItem(w.storage, REFRESH_TOKEN_KEY);
    var failure: JsError;
    if !Truthy(refreshToken) {
      failure := JsError(None, false, NO_REFRESH_TOKEN_MESSAGE);
    } else {
      match reply
      case Refreshed(accessToken, newRefreshToken) =>
        w.SetItem(ACCESS_TOKEN_KEY, StoredText(accessToken));
        if Truthy(newRefreshToken) {
          w.SetItem(REFRESH_TOKEN_KEY, newRefreshToken.value);
        }
        return Ok(accessToken);
      case RefreshFailed(error) =>
        failure := error;
    }
    w.RemoveItem(ACCESS_TOKEN_KEY);
    w.RemoveItem(REFRESH_TOKEN_KEY);
    return Err(failure);
  }

  /** `token.split('.')[1]`: the text between the first and the second dot
      (or the end), or `undefined` when the token has no dot. */
  function SecondSegment(token: string): (r: Option<string>)
    ensures r.Some? <==> '.' in token
  {
    if token == [] then None
    else if token[0] == '.' then Some(UpTo(token[1..], '.'))
    else SecondSegment(token[1..])
  }

  /** For a compact serialisation `header.payload.signature` whose header and
      payload hold no dot, the payload segment is the one decoded. */
  lemma {:induction false} SecondSegmentOfCompact(header: string, payload: string, signature: string)
    requires '.' !in header && '.' !in payload
    ensures SecondSegment(header + "." + payload + "." + signature) == Some(payload)
  {
    var t := header + "." + payload + "." + signature;
    if header == [] {
      var rest := "." + signature;
      assert t == ['.'] + (payload + rest);
      assert t[1..] == payload + rest;
      UpToOfSegment(payload, '.', rest);
    } else {
      assert t[0] == header[0] && t[1..] == header[1..] + "." + payload + "." + signature;
      SecondSegmentOfCompact(header[1..], payload, signature);
    }
  }

  /** `isAuthenticated()`: false without a truthy access token or when the
      payload cannot be decoded (`decode` gives None: `atob` or `JSON.parse`
      threw, or the payload is not an object); otherwise `payload.exp >
      Date.now() / 1000`, where `decode` gives the `exp` claim in seconds, or
      None when it is missing or not a number (the comparison is then false).
      `nowMs` is `Date.now()`. */
  function IsAuthenticated(storage: map<string, string>, nowMs: int, decode: string -> Option<Option<int>>): (r: bool)
    ensures r ==> Truthy(GetItem(storage, ACCESS_TOKEN_KEY))
    ensures r <==> ValidExp(storage, decode).Some? && ValidExp(storage, decode).value * 1000 > nowMs
  {
    match ValidExp(storage, decode)
    case None => false
    case Some(exp) => exp * 1000 > nowMs
  }

  /** The text `atob` is given: the token's second segment, or "undefined"
      when it has none. */
  function PayloadText(token: string): string {
    StoredText(SecondSegment(token))
  }

  /** The `exp` claim of the stored access token, when every step succeeds:
      a truthy token whose payload text decodes to an object with a numeric
      `exp`. */
  function ValidExp(storage: map<string, string>, decode: string -> Option<Option<int>>): (r: Option<int>)
    ensures r.Some? <==> Truthy(GetItem(storage, ACCESS_TOKEN_KEY))
                         && decode(PayloadText(storage[ACCESS_TOKEN_KEY])).Some?
                         && decode(PayloadText(storage[ACCESS_TOKEN_KEY])).value.Some?
    ensures r.Some? ==> r == decode(PayloadText(storage[ACCESS_TOKEN_KEY])).value
  {
    var accessToken := GetItem(storage, ACCESS_TOKEN_KEY);
    if !Truthy(accessToken) then None
    else
      // `atob(undefined)` decodes the text "undefined".
      var segment := PayloadText(accessToken.value);
      match decode(segment)
      case None => None
      case Some(exp) => exp
  }

  /** For a stored compact token `header.payload.signature`, the expiry read
      is the `exp` of the payload segment. */
  lemma ValidExpOfCompact(storage: map<string, string>, header: string, payload: string, signature: string,
                          decode: string -> Option<Option<int>>)
    requires '.' !in header && '.' !in payload
    requires GetItem(storage, ACCESS_TOKEN_KEY) == Some(header + "." + payload + "." + signature)
    ensures ValidExp(storage, decode) == if decode(payload).Some? then decode(payload).value else None
  {
    SecondSegmentOfCompact(header, payload, signature);
  }

  /** The expiry comparison is strict: a token whose `exp` equals the current
      time in seconds is already expired, and so is every later instant. */
  lemma ExpiryIsStrict(storage: map<string, string>, nowMs: int, decode: string -> Option<Option<int>>)
    requires ValidExp(storage, decode).Some? && nowMs >= ValidExp(storage, decode).value * 1000
    ensures !IsAuthenticated(storage, nowMs, decode)
  {
  }

  /** A token valid now was valid at every earlier instant. */
  lemma ValidEarlier(storage: map<string, string>, earlier: int, nowMs: int, decode: string -> Option<Option<int>>)
    requires earlier <= nowMs && IsAuthenticated(storage, nowMs, decode)
    ensures IsAuthenticated(storage, earlier, decode)
  {
  }

  /** Logging out or clearing user data ends authentication whatever the clock. */
  lemma NoTokenNotAuthenticated(storage: map<string, string>, nowMs: int, decode: string -> Option<Option<int>>)
    ensures !IsAuthenticated(WithoutTokens(storage), nowMs, decode)
    ensures !IsAuthenticated(Cleared(storage), nowMs, decode)
  {
  }

  /** What `getStoredUser()` yields: null, the parsed user, or — for any
      other stored text — the `JSON.parse` exception. */
  datatype StoredUser = NoUser | Loaded(user: Profile) | Unparsable

  /** `getStoredUser()`: null for a missing or empty entry and for stored
      `null`; the profile for a profile's JSON text. */
  function GetStoredUser(storage: map<string, string>): (r: StoredUser)
    ensures r.NoUser? <==> !Truthy(GetItem(storage, USER_KEY)) || IsNullText(storage[USER_KEY])
    ensures r.Loaded? <==> Truthy(GetItem(storage, USER_KEY)) && Parse(storage[USER_KEY]).Some?
    ensures r.Loaded? ==> Parse(storage[USER_KEY]) == Some(r.user)
  {
    var userStr := GetItem(storage, USER_KEY);
    if !Truthy(userStr) then NoUser
    else if IsNullText(userStr.value) then ParsedNotNull(userStr.value); NoUser
    else match Parse(userStr.value)
      case Some(p) => Loaded(p)
      case None => Unparsable
  }

  /** `storeUser(u)` writes `JSON.stringify(u)` under `'user'`. */
  method StoreUser(w: Window, u: Profile)
    modifies w
    ensures w.storage == old(w.storage)[USER_KEY := Stringify(u)]
    ensures w.href == old(w.href) && w.loginRedirects == old(w.loginRedirects)
  {
    w.SetItem(USER_KEY, Stringify(u));
  }

  /** `storeUser(u)` followed by `getStoredUser()` yields `u`. */
  lemma StoredUserRoundTrip(storage: map<string, string>, u: Profile)
    ensures GetStoredUser(storage[USER_KEY := Stringify(u)]) == Loaded(u)
  {
    ProfileRoundTrip(u);
  }

  /** A stored `null` reads back as no user, not as a parse error. */
  lemma StoredNullIsNoUser(storage: map<string, string>)
    ensures GetStoredUser(storage[USER_KEY := "null"]) == NoUser
    ensures GetStoredUser(storage[USER_KEY := " null\n"]) == NoUser
  {
    assert TrimJsonSpace(" null\n") == TrimJsonSpace("null\n") == TrimJsonSpace("null") == "null";
  }

  /** `clearUserData()`. */
  method ClearUserData(w: Window)
    modifies w
    ensures w.storage == Cleared(old(w.storage))
    ensures w.href == old(w.href) && w.loginRedirects == old(w.loginRedirects)
  {
    w.RemoveItem(USER_KEY);
    w.RemoveItem(ACCESS_TOKEN_KEY);
    w.RemoveItem(REFRESH_TOKEN_KEY);
  }

  /** Clearing is idempotent, and clearing differs from logging out only in
      the cached user, which logging out keeps. */
  lemma ClearedFacts(storage: map<string, string>)
    ensures Cleared(Cleared(storage)) == Cleared(storage)
    ensures Cleared(storage) == WithoutTokens(storage) - {USER_KEY}
    ensures GetStoredUser(WithoutTokens(storage)) == GetStoredUser(storage)
    ensures GetStoredUser(Cleared(storage)) == NoUser
  {
    assert GetItem(WithoutTokens(storage), USER_KEY) == GetItem(storage, USER_KEY);
  }
}
