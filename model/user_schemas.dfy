/** Request and response validation of `schemas/user.py`: registration,
    profile updates and the token reply. `EmailStr` is the `normalizeEmail`
    parameter: it refuses a text that is not an e-mail address (None) and
    otherwise gives the address Pydantic keeps, with surrounding spaces and
    any display name dropped and the domain lower-cased. */
module UserSchemas {
  import opened Wrappers
  import opened Tables
  import AuthPages
  import Text

  const MIN_PASSWORD_LENGTH := 8

  datatype UserCreate = UserCreate(email: string, fullName: Option<string>, role: Option<Role>, password: string)

  datatype UserInput = UserInput(email: Option<string>, fullName: Option<string>, role: Option<string>,
                                 password: Option<string>)

  predicate EmailOk(e: Option<string>, normalizeEmail: string -> Option<string>) { e.Some? && normalizeEmail(e.value).Some? }
  predicate RoleOk(r: Option<string>) { r.None? || ParseRole(r.value).Some? }
  predicate PasswordOk(p: Option<string>) { p.Some? && |p.value| >= MIN_PASSWORD_LENGTH }
  predicate OptionalPasswordOk(p: Option<string>) { p.None? || |p.value| >= MIN_PASSWORD_LENGTH }

  function Problem(bad: bool, field: string): seq<string> {
    if bad then [field] else []
  }

  function ParseRoleField(r: Option<string>): Option<Role>
    requires RoleOk(r)
  {
    if r.None? then None else ParseRole(r.value)
  }

  function ParseUserCreate(raw: UserInput, normalizeEmail: string -> Option<string>): (r: Result<UserCreate, seq<string>>)
    ensures r.Ok? <==> EmailOk(raw.email, normalizeEmail) && RoleOk(raw.role) && PasswordOk(raw.password)
    ensures r.Ok? ==> |r.value.password| >= MIN_PASSWORD_LENGTH
    ensures r.Ok? ==> r.value.email == normalizeEmail(raw.email.value).value && r.value.password == raw.password.value
                      && r.value.fullName == raw.fullName
                      && (r.value.role.Some? <==> raw.role.Some?)
                      && (r.value.role.Some? ==> RoleName(r.value.role.value) == raw.role.value)
    ensures r.Err? ==> ("email" in r.error <==> !EmailOk(raw.email, normalizeEmail))
    ensures r.Err? ==> ("role" in r.error <==> !RoleOk(raw.role))
    ensures r.Err? ==> ("password" in r.error <==> !PasswordOk(raw.password))
  {
    var errs := Problem(!EmailOk(raw.email, normalizeEmail), "email") + Problem(!RoleOk(raw.role), "role")
      + Problem(!PasswordOk(raw.password), "password");
    if errs != [] then Err(errs)
    else Ok(UserCreate(normalizeEmail(raw.email.value).value, raw.fullName, ParseRoleField(raw.role), raw.password.value))
  }

  /** `UserUpdate` inherits the required e-mail; the password is optional but
      keeps its minimum length. */
  datatype UserUpdate = UserUpdate(email: string, fullName: Option<string>, role: Option<Role>,
                                   password: Option<string>)

  function ParseUserUpdate(raw: UserInput, normalizeEmail: string -> Option<string>): (r: Result<UserUpdate, seq<string>>)
    ensures r.Ok? <==> EmailOk(raw.email, normalizeEmail) && RoleOk(raw.role) && OptionalPasswordOk(raw.password)
    ensures r.Ok? ==> r.value.password == raw.password && r.value.email == normalizeEmail(raw.email.value).value
                      && r.value.fullName == raw.fullName
                      && (r.value.role.Some? <==> raw.role.Some?)
                      && (r.value.role.Some? ==> RoleName(r.value.role.value) == raw.role.value)
    ensures r.Err? ==> ("email" in r.error <==> !EmailOk(raw.email, normalizeEmail))
    ensures r.Err? ==> ("role" in r.error <==> !RoleOk(raw.role))
    ensures r.Err? ==> ("password" in r.error <==> !OptionalPasswordOk(raw.password))
  {
    var errs := Problem(!EmailOk(raw.email, normalizeEmail), "email") + Problem(!RoleOk(raw.role), "role")
      + Problem(!OptionalPasswordOk(raw.password), "password");
    if errs != [] then Err(errs)
    else Ok(UserUpdate(normalizeEmail(raw.email.value).value, raw.fullName, ParseRoleField(raw.role), raw.password))
  }

  /** A registration body is also a valid update body. */
  lemma CreateBodyIsUpdateBody(raw: UserInput, normalizeEmail: string -> Option<string>)
    requires ParseUserCreate(raw, normalizeEmail).Ok?
    ensures ParseUserUpdate(raw, normalizeEmail).Ok?
    ensures ParseUserUpdate(raw, normalizeEmail).value.password == Some(ParseUserCreate(raw, normalizeEmail).value.password)
  {
  }

  /** The user summary the login reply carries. */
  datatype TokenUser = TokenUser(id: int, email: string, fullName: Option<string>, role: Role, isActive: bool)

  datatype Token = Token(accessToken: string, tokenType: string, user: Option<TokenUser>)

  datatype TokenInput = TokenInput(accessToken: Option<string>, tokenType: Option<string>, user: Option<TokenUser>)

  function ParseToken(raw: TokenInput): (r: Result<Token, seq<string>>)
    ensures r.Ok? <==> raw.accessToken.Some? && raw.tokenType.Some?
    ensures r.Ok? ==> r.value.user == raw.user && r.value.accessToken == raw.accessToken.value
                      && r.value.tokenType == raw.tokenType.value
  {
    var errs := Problem(raw.accessToken.None?, "access_token") + Problem(raw.tokenType.None?, "token_type");
    if errs != [] then Err(errs)
    else Ok(Token(raw.accessToken.value, raw.tokenType.value, raw.user))
  }

  function TokenInputOf(t: Token): TokenInput {
    TokenInput(Some(t.accessToken), Some(t.tokenType), t.user)
  }

  /** Every token reply validates to itself; the user summary may be absent. */
  lemma TokenRoundTrip(t: Token)
    ensures ParseToken(TokenInputOf(t)) == Ok(t)
    ensures ParseToken(TokenInputOf(t.(user := None))) == Ok(t.(user := None))
  {
  }

  /** The signup page lets a six- or seven-character password through, and
      the back end refuses the registration that carries it. */
  lemma SignupMinimumBelowBackEnd(f: AuthPages.SignupForm, email: string, normalizeEmail: string -> Option<string>)
    requires AuthPages.SignupError(f).None? && |f.password| < MIN_PASSWORD_LENGTH
    ensures Text.Utf16Length(f.password) >= AuthPages.MIN_PASSWORD_LENGTH
    ensures ParseUserCreate(UserInput(Some(email), Some(f.name), Some(f.userType), Some(f.password)), normalizeEmail).Err?
  {
  }
}
