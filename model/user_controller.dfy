/** `controllers/user_controller.py`: look a user up by e-mail, create a user
    with a hashed password, and check a password. bcrypt hashing and checking
    are the parameters `hash` and `verify`. */
module UserController {
  import opened Wrappers
  import opened Seqs
  import opened Tables
  import opened UserSchemas

  function HasEmail(email: string): UserRow -> bool {
    (u: UserRow) => u.email == email
  }

  /** `.filter(User.email == email).first()`. */
  function GetByEmail(users: seq<UserRow>, email: string): (r: Option<UserRow>)
    ensures r.Some? <==> exists i :: 0 <= i < |users| && users[i].email == email
    ensures r.Some? ==> r.value.email == email && exists i :: 0 <= i < |users| && users[i] == r.value
  {
    Find(users, HasEmail(email))
  }

  /** The row `create` stores. */
  function NewUser(id: int, obj: UserCreate, hash: string -> string): UserRow {
    UserRow(id, obj.email, hash(obj.password), obj.fullName, true, obj.role.GetOr(Consumer))
  }

  /** Inserts the user with the hash of the password, the requested role or
      `consumer`, and the column default `is_active = True`. */
  method Create(db: Database, obj: UserCreate, hash: string -> string) returns (u: UserRow)
    modifies db
    ensures u.id == NextId(old(db.tables.users), UserId)
    ensures u.hashedPassword == hash(obj.password)
    ensures u.role == (if obj.role.Some? then obj.role.value else Consumer)
    ensures u.email == obj.email && u.fullName == obj.fullName && u.isActive
    ensures db.tables == old(db.tables).(users := old(db.tables.users) + [u])
  {
    u := NewUser(NextId(db.tables.users, UserId), obj, hash);
    db.tables := db.tables.(users := db.tables.users + [u]);
  }

  /** None when no user has the e-mail or the password does not check against
      that user's hash; otherwise that user. */
  function Authenticate(users: seq<UserRow>, email: string, password: string,
                        verify: (string, string) -> bool): (r: Option<UserRow>)
    ensures r.Some? <==> GetByEmail(users, email).Some?
                         && verify(password, GetByEmail(users, email).value.hashedPassword)
    ensures r.Some? ==> r == GetByEmail(users, email)
  {
    match GetByEmail(users, email)
    case None => None
    case Some(u) => if verify(password, u.hashedPassword) then Some(u) else None
  }

  /** A user added under a new e-mail is found by it, and authenticates with
      the password whose hash was stored, when hashing and checking agree. */
  lemma AuthenticateNewUser(users: seq<UserRow>, u: UserRow, password: string,
                            hash: string -> string, verify: (string, string) -> bool)
    requires GetByEmail(users, u.email).None?
    requires u.hashedPassword == hash(password) && verify(password, hash(password))
    ensures GetByEmail(users + [u], u.email) == Some(u)
    ensures Authenticate(users + [u], u.email, password, verify) == Some(u)
  {
    FindAppend(users, u, HasEmail(u.email));
  }

  /** Adding a user under another e-mail does not change who an e-mail finds. */
  lemma GetByEmailOther(users: seq<UserRow>, u: UserRow, email: string)
    requires u.email != email
    ensures GetByEmail(users + [u], email) == GetByEmail(users, email)
  {
    FindAppend(users, u, HasEmail(email));
  }
}
