/** `routers/users.py`: open account creation with the role forced to
    `consumer`, the caller's own profile, and the admin-only list, read,
    update and delete by id. The caller is the user the dependencies of
    `routers/base.py` resolved. The controller's generic `update` lives in a
    base class that is not part of this model, so the row it writes is the
    parameter `apply`. */
module UsersRouter {
  import opened Wrappers
  import opened Seqs
  import opened Tables
  import opened UserSchemas
  import opened UserController
  import opened Deps

  const REGISTERED_DETAIL := "Email already registered"
  const USER_NOT_FOUND := "User not found"

  /** `create_user`: 400 and no change for a registered e-mail; otherwise the
      controller's row for the body with the role replaced by `consumer`, so
      a requested `admin` or `supplier` role never reaches the table. */
  method CreateUser(db: Database, user: UserCreate, hash: string -> string) returns (r: Result<UserRow, HttpError>)
    modifies db
    ensures GetByEmail(old(db.tables.users), user.email).Some? ==>
              r == Err(HttpError(BAD_REQUEST, REGISTERED_DETAIL)) && db.tables == old(db.tables)
    ensures GetByEmail(old(db.tables.users), user.email).None? ==>
              r.Ok? && r.value == NewUser(NextId(old(db.tables.users), UserId), user.(role := Some(Consumer)), hash)
              && db.tables == old(db.tables).(users := old(db.tables.users) + [r.value])
    ensures r.Ok? ==> r.value.role == Consumer && r.value.email == user.email && r.value.isActive
  {
    if GetByEmail(db.tables.users, user.email).Some? {
      return Err(HttpError(BAD_REQUEST, REGISTERED_DETAIL));
    }
    var u := Create(db, user.(role := Some(Consumer)), hash);
    r := Ok(u);
  }

  /** `update_user_me` and `update_user`: the row of user `userId` becomes
      `apply(row, body)`; every other row and every other table is kept. */
  method UpdateRow(db: Database, userId: int, body: UserUpdate, apply: (UserRow, UserUpdate) -> UserRow)
    modifies db
    ensures db.tables == old(db.tables).(users := UpdateFirst(old(db.tables.users), IsUser(userId),
                                                              (u: UserRow) => apply(u, body)))
  {
    db.tables := db.tables.(users := UpdateFirst(db.tables.users, IsUser(userId), (u: UserRow) => apply(u, body)));
  }

  /** `PUT /users/me`: only the caller's own row changes. */
  method UpdateUserMe(db: Database, current: UserRow, body: UserUpdate, apply: (UserRow, UserUpdate) -> UserRow)
    returns (r: Result<UserRow, HttpError>)
    modifies db
    ensures db.tables.users == UpdateFirst(old(db.tables.users), IsUser(current.id), (u: UserRow) => apply(u, body))
    ensures db.tables == old(db.tables).(users := db.tables.users)
    ensures |db.tables.users| == |old(db.tables.users)|
    ensures forall i :: 0 <= i < |db.tables.users| && old(db.tables.users)[i].id != current.id ==>
              db.tables.users[i] == old(db.tables.users)[i]
    ensures r == Ok(apply(current, body))
  {
    UpdateRow(db, current.id, body, apply);
    r := Ok(apply(current, body));
  }

  /** `read_user`: 403 for a non-admin caller (from the admin dependency),
      then 404 for an unknown id, else that user. */
  function ReadUser(users: seq<UserRow>, current: UserRow, userId: int): (r: Result<UserRow, HttpError>)
    ensures current.role != Admin ==> r == Err(HttpError(FORBIDDEN, ADMIN_DETAIL))
    ensures current.role == Admin && UserById(users, userId).None? ==> r == Err(HttpError(NOT_FOUND, USER_NOT_FOUND))
    ensures r.Ok? <==> current.role == Admin && UserById(users, userId).Some?
    ensures r.Ok? ==> r.value.id == userId && r.value in users
  {
    var _ :- AdminOnly(current);
    match UserById(users, userId)
    case None => Err(HttpError(NOT_FOUND, USER_NOT_FOUND))
    case Some(u) => Ok(u)
  }

  /** `list_users`: admins only; the users from the `skip`-th on, at most
      `limit`, in the model's row order. */
  function ListUsers(users: seq<UserRow>, current: UserRow, skip: nat, limit: nat): (r: Result<seq<UserRow>, HttpError>)
    ensures r.Ok? <==> current.role == Admin
    ensures r.Err? ==> r.error == HttpError(FORBIDDEN, ADMIN_DETAIL)
    ensures r.Ok? ==> IsWindow(r.value, users, skip, limit)
  {
    var _ :- AdminOnly(current);
    Ok(Paginate(users, skip, limit))
  }

  /** `update_user`: 403 for a non-admin, 404 for an unknown id, and no
      change in either case; otherwise the update of that row only. */
  method UpdateUser(db: Database, current: UserRow, userId: int, body: UserUpdate,
                    apply: (UserRow, UserUpdate) -> UserRow) returns (r: Result<UserRow, HttpError>)
    modifies db
    ensures r.Err? <==> ReadUser(old(db.tables.users), current, userId).Err?
    ensures r.Err? ==> r.error == ReadUser(old(db.tables.users), current, userId).error && db.tables == old(db.tables)
    ensures r.Ok? ==> r.value == apply(ReadUser(old(db.tables.users), current, userId).value, body)
                      && db.tables == old(db.tables).(users := UpdateFirst(old(db.tables.users), IsUser(userId),
                                                                           (u: UserRow) => apply(u, body)))
  {
    var found := ReadUser(db.tables.users, current, userId);
    if found.Err? {
      return Err(found.error);
    }
    UpdateRow(db, userId, body, apply);
    r := Ok(apply(found.value, body));
  }

  /** `delete_user`: 403 for a non-admin, 404 for an unknown id, and no
      change in either case; otherwise the row found is deleted. */
  method DeleteUser(db: Database, current: UserRow, userId: int) returns (r: Result<(), HttpError>)
    modifies db
    ensures r.Err? <==> ReadUser(old(db.tables.users), current, userId).Err?
    ensures r.Err? ==> r.error == ReadUser(old(db.tables.users), current, userId).error && db.tables == old(db.tables)
    ensures r.Ok? ==> db.tables == old(db.tables).(users := RemoveFirst(old(db.tables.users), IsUser(userId)))
  {
    var found := ReadUser(db.tables.users, current, userId);
    if found.Err? {
      return Err(found.error);
    }
    db.tables := db.tables.(users := RemoveFirst(db.tables.users, IsUser(userId)));
    r := Ok(());
  }

  /** Under distinct ids, a deleted user can no longer be read: the next read
      by an admin is 404. */
  lemma DeletedUserNotFound(users: seq<UserRow>, current: UserRow, userId: int)
    requires UniqueIds(users, UserId) && current.role == Admin
    ensures ReadUser(RemoveFirst(users, IsUser(userId)), current, userId) == Err(HttpError(NOT_FOUND, USER_NOT_FOUND))
  {
    forall i, j | 0 <= i < j < |users| && IsUser(userId)(users[i]) ensures !IsUser(userId)(users[j]) {
      assert UserId(users[i]) != UserId(users[j]);
    }
    RemoveFirstLeavesNone(users, IsUser(userId));
  }
}
