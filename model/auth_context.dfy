/** frontend/src/contexts/AuthContext.jsx: the provider's `user`, `loading`
    and `error` state and the operations that update it. */
module AuthContext {
  import opened Wrappers
  import opened Browser
  import opened ApiClient
  import opened UserJson
  import AuthService

  const LOGIN_FAILED_MESSAGE := "Login failed"
  const REGISTRATION_FAILED_MESSAGE := "Registration failed"
  const OUTSIDE_PROVIDER_MESSAGE := "useAuth must be used within an AuthProvider"

  /** `err.message || fallback`. */
  function ErrorText(err: JsError, fallback: string): (m: string)
    ensures fallback != "" ==> m != ""
    ensures err.message != "" ==> m == err.message
  {
    if err.message != "" then err.message else fallback
  }

  class AuthProvider {
    var user: Option<Profile>
    var loading: bool
    var error: Option<string>
    /** The browser whose store the session lives in. */
    const window: Window

    /** Initial state: no user, loading, no error. */
    constructor (window: Window)
      ensures this.window == window && user == None && loading && error == None
    {
      this.window := window;
      user := None;
      loading := true;
      error := None;
    }

    /** The mount effect: restore the cached user when one is stored and the
        token is currently valid; `loading` ends false. A cached text that does
        not parse makes the effect throw before `loading` is cleared. */
    method Restore(nowMs: int, decode: string -> Option<Option<int>>)
      modifies this
      ensures var saved := AuthService.GetStoredUser(window.storage);
              if saved.Unparsable? then user == old(user) && loading == old(loading)
              else !loading
                   && user == (if saved.Loaded? && AuthService.IsAuthenticated(window.storage, nowMs, decode)
                               then Some(saved.user) else old(user))
      ensures error == old(error)
    {
      var saved := AuthService.GetStoredUser(window.storage);
      if saved.Unparsable? {
        return;
      }
      if saved.Loaded? && AuthService.IsAuthenticated(window.storage, nowMs, decode) {
        user := Some(saved.user);
      }
      loading := false;
    }

    /** `login`: on success the returned user is set and the error cleared; on
        failure the user is kept, the error set and the failure rethrown;
        `loading` ends false either way. */
    method Login(reply: AuthService.SessionReply) returns (r: Result<Option<Profile>, JsError>)
      modifies this, window
      ensures r == (if reply.SessionIssued? then Ok(reply.user) else Err(reply.error))
      ensures reply.SessionIssued? ==> user == reply.user && error == None
      ensures reply.SessionRefused? ==>
                user == old(user) && error == Some(ErrorText(reply.error, LOGIN_FAILED_MESSAGE))
      ensures !loading
      ensures window.storage == (if reply.SessionIssued?
                                 then AuthService.WithSession(old(window.storage), reply.accessToken, reply.refreshToken)
                                 else old(window.storage))
    {
      error := None;
      loading := true;
      r := AuthService.Login(window, reply);
      match r {
        case Ok(u) =>
          user := u;
        case Err(err) =>
          error := Some(ErrorText(err, LOGIN_FAILED_MESSAGE));
      }
      loading := false;
    }

    /** `register`: as `login`, with the fallback message 'Registration failed'. */
    method Register(reply: AuthService.SessionReply) returns (r: Result<Option<Profile>, JsError>)
      modifies this, window
      ensures r == (if reply.SessionIssued? then Ok(reply.user) else Err(reply.error))
      ensures reply.SessionIssued? ==> user == reply.user && error == None
      ensures reply.SessionRefused? ==>
                user == old(user) && error == Some(ErrorText(reply.error, REGISTRATION_FAILED_MESSAGE))
      ensures !loading
      ensures window.storage == (if reply.SessionIssued?
                                 then AuthService.WithSession(old(window.storage), reply.accessToken, reply.refreshToken)
                                 else old(window.storage))
    {
      error := None;
      loading := true;
      r := AuthService.Register(window, reply);
      match r {
        case Ok(u) =>
          user := u;
        case Err(err) =>
          error := Some(ErrorText(err, REGISTRATION_FAILED_MESSAGE));
      }
      loading := false;
    }

    /** `logout`: the error is cleared, the service logout runs (which may
        send the browser to `/login` when its call's refresh is refused),
        the tokens are removed and the user unset. */
    method Logout(reply: Reply, refresh: RefreshReply, resend: Reply)
      modifies this, window
      ensures user == None && error == None && loading == old(loading)
      ensures window.storage == AuthService.WithoutTokens(old(window.storage))
      ensures Truthy(GetItem(old(window.storage), REFRESH_TOKEN_KEY)) && AuthService.Unauthorized(reply)
              && refresh.RefreshFailed? ==>
                window.href == LOGIN_PATH && window.loginRedirects == old(window.loginRedirects) + 1
      ensures !(Truthy(GetItem(old(window.storage), REFRESH_TOKEN_KEY)) && AuthService.Unauthorized(reply)
                && refresh.RefreshFailed?) ==>
                window.href == old(window.href) && window.loginRedirects == old(window.loginRedirects)
    {
      error := None;
      var calls := AuthService.Logout(window, reply, refresh, resend);
      user := None;
    }

    /** The context value's `isAuthenticated`: a user is set and the stored
        access token is valid now. */
    function IsAuthenticated(nowMs: int, decode: string -> Option<Option<int>>): (r: bool)
      reads this, window
      ensures r ==> user.Some? && Truthy(GetItem(window.storage, ACCESS_TOKEN_KEY))
      ensures user.Some? ==> r == AuthService.IsAuthenticated(window.storage, nowMs, decode)
    {
      user.Some? && AuthService.IsAuthenticated(window.storage, nowMs, decode)
    }

    /** The context value's `userType`: the user's role, undefined without a user. */
    function UserType(): (r: Option<string>)
      reads this
      ensures r.Some? <==> user.Some?
      ensures r.Some? ==> r.value == user.value.role
    {
      match user
      case Some(u) => Some(u.role)
      case None => None
    }
  }

  /** `useAuth()`: the provider's value, or the error thrown outside one. */
  function UseAuth(context: Option<AuthProvider>): (r: Result<AuthProvider, string>)
    ensures r.Ok? <==> context.Some?
    ensures r.Ok? ==> r.value == context.value
    ensures r.Err? ==> r.error == OUTSIDE_PROVIDER_MESSAGE
  {
    match context
    case Some(p) => Ok(p)
    case None => Err(OUTSIDE_PROVIDER_MESSAGE)
  }
}
