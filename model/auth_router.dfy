/** `routers/auth.py`: the OAuth2 password grant at `/token` (section 4.3 of
    RFC 6749) and registration at `/register`. The JWT signer is the parameter
    `encode`, bcrypt the parameters `hash` and `verify`, and the clock the
    parameter `now` (seconds). `ACCESS_TOKEN_EXPIRE_MINUTES` comes from a
    configuration module that is not part of this model, so it is the
    parameter `expireMinutes`. */
module AuthRouter {
  import opened Wrappers
  import opened Seqs
  import opened Numerals
  import opened Tables
  import opened UserSchemas
  import opened UserController
  import opened Deps

  /** `timedelta(minutes=15)`, in seconds. */
  const DEFAULT_LIFETIME := 15 * 60

  const INCORRECT_DETAIL := "Incorrect email or password"
  const INACTIVE_DETAIL := "Inactive user"
  const REGISTERED_DETAIL := "Email already registered"
  const BEARER := "bearer"

  /** The claim set `create_access_token` signs: a copy of `data` with `exp`
      set `expiresDelta` seconds after `now`, or 15 minutes after it when the
      delta is absent or zero (a zero `timedelta` is falsy). */
  function TokenClaims(data: Claims, expiresDelta: Option<int>, now: int): (r: Claims)
    ensures r.Keys == data.Keys + {EXP}
    ensures forall k :: k in data && k != EXP ==> k in r && r[k] == data[k]
    ensures r[EXP] == Number(now + if expiresDelta.Some? && expiresDelta.value != 0
                                   then expiresDelta.value else DEFAULT_LIFETIME)
  {
    var expire := if expiresDelta.Some? && expiresDelta.value != 0 then now + expiresDelta.value
                  else now + DEFAULT_LIFETIME;
    data[EXP := Number(expire)]
  }

  /** Adding the expiry never changes who the token names. */
  lemma TokenClaimsKeepSubject(data: Claims, expiresDelta: Option<int>, now: int)
    requires SUB != EXP
    ensures SubjectId(TokenClaims(data, expiresDelta, now)) == SubjectId(data)
  {
  }

  /** The claims of a login token for the user with id `id`: subject
      `str(id)`, lifetime `expireMinutes`. */
  function AccessClaims(id: int, expireMinutes: int, now: int): Claims {
    TokenClaims(map[SUB := Text(IntToString(id))], Some(expireMinutes * 60), now)
  }

  /** The user summary of the login reply. */
  function Summary(u: UserRow): TokenUser {
    TokenUser(u.id, u.email, u.fullName, u.role, u.isActive)
  }

  /** `login_for_access_token`: wrong e-mail or password is 401 before an
      inactive account is 400; otherwise a bearer token for the user and
      their summary. */
  function LoginForAccessToken(users: seq<UserRow>, username: string, password: string,
                               verify: (string, string) -> bool, expireMinutes: int, now: int,
                               encode: Claims -> string): (r: Result<Token, HttpError>)
    ensures r.Ok? <==> Authenticate(users, username, password, verify).Some?
                       && Authenticate(users, username, password, verify).value.isActive
    ensures r == Err(HttpError(UNAUTHORIZED, INCORRECT_DETAIL))
            <==> Authenticate(users, username, password, verify).None?
    ensures r.Err? ==> r.error in {HttpError(UNAUTHORIZED, INCORRECT_DETAIL), HttpError(BAD_REQUEST, INACTIVE_DETAIL)}
    ensures r.Ok? ==> var u := Authenticate(users, username, password, verify).value;
                      r.value.tokenType == BEARER && r.value.user == Some(Summary(u))
                      && r.value.accessToken == encode(AccessClaims(u.id, expireMinutes, now))
  {
    match Authenticate(users, username, password, verify)
    case None => Err(HttpError(UNAUTHORIZED, INCORRECT_DETAIL))
    case Some(u) =>
      if !u.isActive then Err(HttpError(BAD_REQUEST, INACTIVE_DETAIL))
      else Ok(Token(encode(AccessClaims(u.id, expireMinutes, now)), BEARER, Some(Summary(u))))
  }

  /** The token a login issues names the user who logged in: while it decodes
      to the claims it was signed with, `get_current_user` returns that user,
      provided user ids are distinct. */
  lemma LoginThenCurrentUser(users: seq<UserRow>, username: string, password: string,
                             verify: (string, string) -> bool, expireMinutes: int, now: int,
                             encode: Claims -> string, decode: string -> Option<Claims>)
    requires UniqueIds(users, UserId)
    requires LoginForAccessToken(users, username, password, verify, expireMinutes, now, encode).Ok?
    requires forall c :: decode(encode(c)) == Some(c)
    ensures var token := LoginForAccessToken(users, username, password, verify, expireMinutes, now, encode).value;
            GetCurrentUser(users, token.accessToken, decode)
            == Ok(Authenticate(users, username, password, verify).value)
  {
    var u := Authenticate(users, username, password, verify).value;
    var claims := AccessClaims(u.id, expireMinutes, now);
    IntToStringRoundTrip(u.id);
    assert SubjectId(claims) == Some(u.id);
    UserByIdFinds(users, u);
  }

  /** No two users share an e-mail (the column is `unique`). */
  ghost predicate DistinctEmails(users: seq<UserRow>) {
    forall i, j :: 0 <= i < j < |users| ==> users[i].email != users[j].email
  }

  /** `register_user`: 400 and no change for a registered e-mail; otherwise
      a new active user with the hashed password and the requested role, or
      `consumer`. The new row keeps e-mails and ids distinct. */
  method RegisterUser(db: Database, user: UserCreate, hash: string -> string) returns (r: Result<UserRow, HttpError>)
    modifies db
    ensures GetByEmail(old(db.tables.users), user.email).Some? ==>
              r == Err(HttpError(BAD_REQUEST, REGISTERED_DETAIL)) && db.tables == old(db.tables)
    ensures GetByEmail(old(db.tables.users), user.email).None? ==>
              r.Ok? && r.value == NewUser(NextId(old(db.tables.users), UserId), user, hash)
              && db.tables == old(db.tables).(users := old(db.tables.users) + [r.value])
    ensures r.Ok? ==> r.value.isActive && r.value.hashedPassword == hash(user.password)
                      && r.value.role == user.role.GetOr(Consumer)
    ensures DistinctEmails(old(db.tables.users)) ==> DistinctEmails(db.tables.users)
    ensures UniqueIds(old(db.tables.users), UserId) ==> UniqueIds(db.tables.users, UserId)
  {
    if GetByEmail(db.tables.users, user.email).Some? {
      return Err(HttpError(BAD_REQUEST, REGISTERED_DETAIL));
    }
    var before := db.tables.users;
    var u := Create(db, user, hash);
    if UniqueIds(before, UserId) {
      UniqueIdsInsert(before, u, UserId);
    }
    r := Ok(u);
  }

  /** A user who has just registered can log in with the same e-mail and
      password (when bcrypt's check accepts its own hash) and gets their own
      summary back. */
  lemma RegisterThenLogin(users: seq<UserRow>, user: UserCreate, hash: string -> string,
                          verify: (string, string) -> bool, expireMinutes: int, now: int,
                          encode: Claims -> string)
    requires GetByEmail(users, user.email).None?
    requires verify(user.password, hash(user.password))
    ensures var u := NewUser(NextId(users, UserId), user, hash);
            var reply := LoginForAccessToken(users + [u], user.email, user.password, verify,
                                             expireMinutes, now, encode);
            reply.Ok? && reply.value.user == Some(Summary(u))
  {
    var u := NewUser(NextId(users, UserId), user, hash);
    AuthenticateNewUser(users, u, user.password, hash, verify);
  }

  /** Two registration bodies whose addresses `EmailStr` normalises alike
      name the same account: once the first is stored, the second one's
      address finds that user, so `register` answers it with 400. */
  lemma NormalisedAddressRegistered(users: seq<UserRow>, first: UserInput, second: UserInput,
                                    normalizeEmail: string -> Option<string>, hash: string -> string)
    requires ParseUserCreate(first, normalizeEmail).Ok? && ParseUserCreate(second, normalizeEmail).Ok?
    requires normalizeEmail(first.email.value) == normalizeEmail(second.email.value)
    requires GetByEmail(users, ParseUserCreate(first, normalizeEmail).value.email).None?
    ensures var u := NewUser(NextId(users, UserId), ParseUserCreate(first, normalizeEmail).value, hash);
            GetByEmail(users + [u], ParseUserCreate(second, normalizeEmail).value.email) == Some(u)
  {
    var u := NewUser(NextId(users, UserId), ParseUserCreate(first, normalizeEmail).value, hash);
    FindAppend(users, u, HasEmail(u.email));
  }
}
