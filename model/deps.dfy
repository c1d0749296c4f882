/** `routers/base.py`: the dependencies every protected endpoint resolves
    first — the current user named by the bearer token, the admin-only guard —
    and the common query parameters. `jwt.decode` is the parameter `decode`:
    signature, algorithm and expiry are its checks, and `None` stands for the
    `JWTError` it raises. */
module Deps {
  import opened Wrappers
  import opened Seqs
  import opened Numerals
  import opened Tables

  /** A JSON value of a JWT claim set, as far as the back end reads one. */
  datatype ClaimValue = Text(text: string) | Number(n: int)

  type Claims = map<string, ClaimValue>

  /** The registered claim names "sub" and "exp" of section 4.1 of RFC 7519. */
  const SUB := "sub"
  const EXP := "exp"

  const CREDENTIALS_DETAIL := "Could not validate credentials"
  const ADMIN_DETAIL := "Insufficient permissions"

  function CredentialsError(): HttpError {
    HttpError(UNAUTHORIZED, CREDENTIALS_DETAIL)
  }

  /** `int(payload.get("sub"))` when it returns: the digits of a text subject,
      or a numeric subject itself; `None` where `int` raises (no subject, or
      text that is not a decimal integer). */
  function SubjectId(c: Claims): (r: Option<int>)
    ensures SUB !in c ==> r.None?
    ensures SUB in c && c[SUB].Text? ==> r == ParseInt(c[SUB].text)
    ensures SUB in c && c[SUB].Number? ==> r == Some(c[SUB].n)
  {
    if SUB !in c then None
    else match c[SUB]
      case Text(t) => ParseInt(t)
      case Number(n) => Some(n)
  }

  function IsUser(id: int): UserRow -> bool {
    (u: UserRow) => u.id == id
  }

  /** `db.query(User).filter(User.id == user_id).first()`. */
  function UserById(users: seq<UserRow>, id: int): (r: Option<UserRow>)
    ensures r.Some? <==> exists i :: 0 <= i < |users| && users[i].id == id
    ensures r.Some? ==> r.value.id == id && r.value in users
  {
    Find(users, IsUser(id))
  }

  /** Under distinct ids, the lookup by a stored user's id finds that user. */
  lemma UserByIdFinds(users: seq<UserRow>, u: UserRow)
    requires UniqueIds(users, UserId) && u in users
    ensures UserById(users, u.id) == Some(u)
  {
    var i :| 0 <= i < |users| && users[i] == u;
    assert users[i].id == u.id;
    var v := UserById(users, u.id).value;
    var j :| 0 <= j < |users| && users[j] == v;
    assert UserId(users[i]) == u.id == v.id == UserId(users[j]);
    assert i == j;
  }

  /** `get_current_user` as written: a decoding error or an unknown id gives
      401, but a decoded token whose subject is missing or not a number makes
      `int(...)` raise `TypeError`/`ValueError`, which no handler catches, so
      the reply is a bare 500; the `user_id is None` check after it never
      fires. */
  function CurrentUserAsWritten(users: seq<UserRow>, token: string, decode: string -> Option<Claims>)
    : (r: Result<UserRow, HttpError>)
    ensures r == Err(HttpError(INTERNAL_SERVER_ERROR, UNHANDLED_DETAIL))
            <==> decode(token).Some? && SubjectId(decode(token).value).None?
    ensures r.Ok? ==> decode(token).Some? && SubjectId(decode(token).value) == Some(r.value.id) && r.value in users
  {
    match decode(token)
    case None => Err(CredentialsError())
    case Some(payload) =>
      match SubjectId(payload)
      case None => Err(HttpError(INTERNAL_SERVER_ERROR, UNHANDLED_DETAIL))
      case Some(id) =>
        match UserById(users, id)
        case None => Err(CredentialsError())
        case Some(u) => Ok(u)
  }

  /** `get_current_user` as its `user_id is None` check intends: every way the
      token fails to name a stored user is 401 "Could not validate
      credentials"; otherwise the user whose id is the subject. */
  function GetCurrentUser(users: seq<UserRow>, token: string, decode: string -> Option<Claims>)
    : (r: Result<UserRow, HttpError>)
    ensures r.Ok? <==> decode(token).Some? && SubjectId(decode(token).value).Some?
                       && UserById(users, SubjectId(decode(token).value).value).Some?
    ensures r.Ok? ==> r.value.id == SubjectId(decode(token).value).value && r.value in users
    ensures r.Err? ==> r.error == HttpError(UNAUTHORIZED, CREDENTIALS_DETAIL)
  {
    var payload :- ToResult(decode(token));
    var id :- ToResult(SubjectId(payload));
    var u :- ToResult(UserById(users, id));
    Ok(u)
  }

  function ToResult<T>(o: Option<T>): (r: Result<T, HttpError>)
    ensures r.Ok? <==> o.Some?
    ensures r.Ok? ==> r.value == o.value
    ensures r.Err? ==> r.error == CredentialsError()
  {
    if o.Some? then Ok(o.value) else Err(CredentialsError())
  }

  /** A decoded token without a subject: a 500 as written, 401 as intended. */
  lemma MissingSubjectAsWritten(users: seq<UserRow>, token: string, decode: string -> Option<Claims>)
    requires decode(token).Some? && SUB !in decode(token).value
    ensures CurrentUserAsWritten(users, token, decode).Err?
    ensures CurrentUserAsWritten(users, token, decode).error.status == INTERNAL_SERVER_ERROR
    ensures GetCurrentUser(users, token, decode) == Err(HttpError(UNAUTHORIZED, CREDENTIALS_DETAIL))
  {
  }

  /** Wherever the subject reads as a number or the token does not decode, the
      code as written and the intended dependency agree. */
  lemma AsWrittenAgreesOtherwise(users: seq<UserRow>, token: string, decode: string -> Option<Claims>)
    requires decode(token).None? || SubjectId(decode(token).value).Some?
    ensures CurrentUserAsWritten(users, token, decode) == GetCurrentUser(users, token, decode)
  {
  }

  /** `get_current_admin_user`: the caller unchanged when an admin, else 403. */
  function AdminOnly(current: UserRow): (r: Result<UserRow, HttpError>)
    ensures r.Ok? <==> current.role == Admin
    ensures r.Ok? ==> r.value == current
    ensures r.Err? ==> r.error == HttpError(FORBIDDEN, ADMIN_DETAIL)
  {
    if current.role != Admin then Err(HttpError(FORBIDDEN, ADMIN_DETAIL)) else Ok(current)
  }

  /** The admin dependency on top of the user dependency: an unauthenticated
      caller is 401 whatever their role would be, an authenticated non-admin
      403. */
  function GetCurrentAdminUser(users: seq<UserRow>, token: string, decode: string -> Option<Claims>)
    : (r: Result<UserRow, HttpError>)
    ensures r.Ok? <==> GetCurrentUser(users, token, decode).Ok? && GetCurrentUser(users, token, decode).value.role == Admin
    ensures GetCurrentUser(users, token, decode).Err? ==> r == GetCurrentUser(users, token, decode)
    ensures GetCurrentUser(users, token, decode).Ok? && r.Err? ==> r.error.status == FORBIDDEN
  {
    var u :- GetCurrentUser(users, token, decode);
    AdminOnly(u)
  }

  /** `CommonQueryParams`: `skip`, `limit` and the search text `q`. */
  datatype QueryParams = QueryParams(skip: int, limit: int, q: Option<string>)

  /** The parameters of a request that gives none of them. */
  function CommonQueryParams(skip: Option<int>, limit: Option<int>, q: Option<string>): (r: QueryParams)
    ensures skip.None? && limit.None? && q.None? ==> r == QueryParams(0, 100, None)
    ensures skip.Some? ==> r.skip == skip.value
    ensures limit.Some? ==> r.limit == limit.value
    ensures r.q == q
  {
    QueryParams(skip.GetOr(0), limit.GetOr(100), q)
  }
}
