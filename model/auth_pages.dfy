/** frontend/src/components/auth/Login.jsx and Signup.jsx: the submit
    handlers' validation chains, the mock user they build and the dashboard
    they navigate to. The one-second `setTimeout` is modelled as a separate
    completion step; `Date.now()` is the parameter `now`. */
module AuthPages {
  import opened Wrappers
  import opened Text

  const CONSUMER_DASHBOARD := "/consumer/dashboard"
  const SUPPLIER_DASHBOARD := "/supplier/dashboard"
  const FILL_ALL_FIELDS := "Please fill in all fields"
  const PASSWORDS_DIFFER := "Passwords do not match"
  const PASSWORD_TOO_SHORT := "Password must be at least 6 characters"
  const MIN_PASSWORD_LENGTH := 6

  /** Where a freshly signed-in user goes: consumers to their dashboard,
      every other user type to the supplier dashboard. */
  function DashboardFor(userType: string): (path: string)
    ensures path == CONSUMER_DASHBOARD <==> userType == "consumer"
    ensures path == CONSUMER_DASHBOARD || path == SUPPLIER_DASHBOARD
  {
    if userType == "consumer" then CONSUMER_DASHBOARD else SUPPLIER_DASHBOARD
  }

  /** The user object handed to the context's `login`. */
  datatype MockUser = MockUser(id: int, name: string, email: string, userType: string)

  datatype LoginForm = LoginForm(email: string, password: string, userType: string)

  datatype SignupForm = SignupForm(name: string, email: string, password: string,
                                   confirmPassword: string, userType: string)

  /** The login guard: the error to show, or None when the form may be submitted. */
  function LoginError(f: LoginForm): (r: Option<string>)
    ensures r.None? <==> f.email != "" && f.password != "" && f.userType != ""
    ensures r.Some? ==> r.value == FILL_ALL_FIELDS
  {
    if f.email == "" || f.password == "" || f.userType == "" then Some(FILL_ALL_FIELDS) else None
  }

  /** The signup guards, in order: empty field, mismatched confirmation,
      short password, where the password's length is JavaScript's `length`
      (UTF-16 code units). */
  function SignupError(f: SignupForm): (r: Option<string>)
    ensures r.None? <==> f.name != "" && f.email != "" && f.password != "" && f.userType != ""
                         && f.password == f.confirmPassword && Utf16Length(f.password) >= MIN_PASSWORD_LENGTH
    ensures (f.name == "" || f.email == "" || f.password == "" || f.userType == "") ==> r == Some(FILL_ALL_FIELDS)
    ensures r == Some(PASSWORDS_DIFFER) <==>
              f.name != "" && f.email != "" && f.password != "" && f.userType != "" && f.password != f.confirmPassword
    ensures r == Some(PASSWORD_TOO_SHORT) <==>
              f.name != "" && f.email != "" && f.password != "" && f.userType != ""
              && f.password == f.confirmPassword && Utf16Length(f.password) < MIN_PASSWORD_LENGTH
  {
    if f.name == "" || f.email == "" || f.password == "" || f.userType == "" then Some(FILL_ALL_FIELDS)
    else if f.password != f.confirmPassword then Some(PASSWORDS_DIFFER)
    else if Utf16Length(f.password) < MIN_PASSWORD_LENGTH then Some(PASSWORD_TOO_SHORT)
    else None
  }

  /** The user the login page builds: id 1, the email's text before the first
      `@` as name, the chosen type. */
  function LoginUser(f: LoginForm): (u: MockUser)
    ensures u.id == 1 && u.email == f.email && u.userType == f.userType
    ensures '@' !in u.name && IsPrefix(u.name, f.email)
    ensures |u.name| < |f.email| ==> f.email[|u.name|] == '@'
  {
    MockUser(1, UpTo(f.email, '@'), f.email, f.userType)
  }

  /** For `local@domain`, the name is `local`; an email without `@` is its own name. */
  lemma LoginUserName(local: string, domain: string, f: LoginForm)
    requires '@' !in local
    ensures f.email == local + "@" + domain ==> LoginUser(f).name == local
    ensures '@' !in f.email ==> LoginUser(f).name == f.email
  {
    if f.email == local + "@" + domain {
      assert f.email == local + ("@" + domain);
      UpToOfSegment(local, '@', "@" + domain);
    }
    if '@' !in f.email {
      UpToAbsent(f.email, '@');
    }
  }

  /** The user the signup page builds: a clock-based id, the form's name,
      email and type. */
  function SignupUser(f: SignupForm, now: int): (u: MockUser)
    ensures u.id == now && u.name == f.name && u.email == f.email && u.userType == f.userType
  {
    MockUser(now, f.name, f.email, f.userType)
  }

  /** Both pages' state: the shown error, the spinner, what was passed to
      `login` and where the router was sent. */
  class AuthPage {
    var error: string
    var loading: bool
    var loggedIn: Option<MockUser>
    var navigatedTo: Option<string>

    constructor ()
      ensures error == "" && !loading && loggedIn == None && navigatedTo == None
    {
      error := "";
      loading := false;
      loggedIn := None;
      navigatedTo := None;
    }

    /** Login's `handleSubmit` up to the timer: a failing guard shows its
        error and stops; otherwise loading starts and the error clears. */
    method SubmitLogin(f: LoginForm) returns (scheduled: bool)
      modifies this
      ensures scheduled <==> LoginError(f).None?
      ensures !scheduled ==> error == LoginError(f).value && loading == old(loading)
      ensures scheduled ==> error == "" && loading
      ensures loggedIn == old(loggedIn) && navigatedTo == old(navigatedTo)
    {
      var e := LoginError(f);
      if e.Some? {
        error := e.value;
        return false;
      }
      loading := true;
      error := "";
      return true;
    }

    /** Signup's `handleSubmit` up to the timer. */
    method SubmitSignup(f: SignupForm) returns (scheduled: bool)
      modifies this
      ensures scheduled <==> SignupError(f).None?
      ensures !scheduled ==> error == SignupError(f).value && loading == old(loading)
      ensures scheduled ==> error == "" && loading
      ensures loggedIn == old(loggedIn) && navigatedTo == old(navigatedTo)
    {
      var e := SignupError(f);
      if e.Some? {
        error := e.value;
        return false;
      }
      loading := true;
      error := "";
      return true;
    }

    /** The timer callback of either page: log the built user in, navigate
        to the dashboard for its type, stop the spinner. */
    method Complete(u: MockUser)
      modifies this
      ensures loggedIn == Some(u) && navigatedTo == Some(DashboardFor(u.userType))
      ensures !loading && error == old(error)
    {
      loggedIn := Some(u);
      navigatedTo := Some(DashboardFor(u.userType));
      loading := false;
    }
  }

  /** A form that clears the signup guards also clears the login guard for the
      same email, password and type. */
  lemma SignupStricterThanLogin(f: SignupForm)
    requires SignupError(f).None?
    ensures LoginError(LoginForm(f.email, f.password, f.userType)).None?
    ensures Utf16Length(f.password) >= MIN_PASSWORD_LENGTH
  {
  }

  /** The length guard counts UTF-16 code units: three characters beyond
      U+FFFF (three emoji) are six units and pass it. */
  lemma AstralPasswordPasses()
    ensures var pw := "\U{1F600}\U{1F600}\U{1F600}";
            |pw| == 3 && SignupError(SignupForm("Ann", "ann@example.com", pw, pw, "consumer")).None?
  {
    var pw := "\U{1F600}\U{1F600}\U{1F600}";
    assert Utf16Length(pw[2..]) == 2;
    assert Utf16Length(pw[1..]) == 4;
  }
}
