/** The user endpoints (app/controllers/user_controller.py): registration, the login
    decision, profile and password changes, deletion, blocking and the user listings. The
    caller of an authenticated endpoint is the user row the JWT identity names. */
module UserController {
  import opened Common
  import opened Store
  import UserModel

  const AdminRequired := Reply(403, "Admin access required")
  const Unauthorized := Reply(403, "Unauthorized")
  const NotFoundReply := Reply(404, "Not Found")
  const MissingFields := Reply(400, "Missing required fields")
  const EmailExists := Reply(400, "Email already exists")

  /** The caller is the user row with its id, and carries that row's role. */
  ghost predicate Authenticated(db: Db, caller: Caller)
    reads db
  {
    caller.id in db.users && db.users[caller.id].role == caller.role
  }

  datatype RegisterBody = RegisterBody(name: Option<string>, email: Option<string>, password: Option<string>,
                                       contactNumber: Option<string>, address: Option<string>)

  /** `register_user`: whatever the body says, the new user is an ACTIVE supplier. */
  method RegisterUser(db: Db, body: RegisterBody) returns (r: Reply)
    requires db.Valid()
    modifies db`users, db`nextUserId
    ensures db.Valid()
    ensures r.status != 201 ==> db.users == old(db.users)
    ensures body.name.None? || body.email.None? || body.password.None? ==> r == MissingFields
    ensures body.name.Some? && body.email.Some? && body.password.Some? ==>
      && (EmailTaken(old(db.users), body.email.value) ==> r == EmailExists)
      && (!EmailTaken(old(db.users), body.email.value) ==>
            && r.status == 201
            && old(db.nextUserId) !in old(db.users)
            && db.users == old(db.users)[old(db.nextUserId) :=
                 User(body.name.value, body.email.value, body.contactNumber, body.address,
                      body.password.value, Supplier, Active, None, None)])
  {
    if body.name.None? || body.email.None? || body.password.None? {
      return MissingFields;
    }
    if EmailTaken(db.users, body.email.value) {
      return EmailExists;
    }
    var id := db.nextUserId;
    db.users := db.users[id := User(body.name.value, body.email.value, body.contactNumber, body.address,
                                    body.password.value, Supplier, Active, None, None)];
    db.nextUserId := id + 1;
    r := Reply(201, "");
  }

  datatype LoginBody = LoginBody(name: Option<string>, email: Option<string>, password: Option<string>)

  /** How `login` looks the user up: by name when the body has one, else by email. */
  function LoginLookup(body: LoginBody): (r: Lookup)
    requires body.name.Some? || body.email.Some?
    ensures body.name.Some? ==> r == ByName(body.name.value)
    ensures body.name.None? ==> r == ByEmail(body.email.value)
  {
    if body.name.Some? then ByName(body.name.value) else ByEmail(body.email.value)
  }

  /** The decision of `login`: the id the issued tokens name, or the error reply. */
  function Login(db: Db, body: LoginBody): (r: Result<int, Reply>)
    reads db
    requires db.Valid()
    ensures body.password.None? || (body.name.None? && body.email.None?) ==> r == Failure(MissingFields)
    ensures r.Success? <==>
      && body.password.Some? && (body.name.Some? || body.email.Some?)
      && var found := db.FindUser(LoginLookup(body));
      && found.Some?
      && db.users[found.value].password == body.password.value
      && !UserModel.IsBlocked(db.users[found.value])
    ensures r.Success? ==> r.value == db.FindUser(LoginLookup(body)).value
    ensures body.password.Some? && (body.name.Some? || body.email.Some?) ==>
      var found := db.FindUser(LoginLookup(body));
      && (found.None? || db.users[found.value].password != body.password.value ==>
            r == Failure(Reply(401, "Invalid name or password")))
      && (found.Some? && db.users[found.value].password == body.password.value && UserModel.IsBlocked(db.users[found.value]) ==>
            r == Failure(Reply(403, "Account is blocked")))
  {
    if body.password.None? || (body.name.None? && body.email.None?) then Failure(MissingFields)
    else
      match db.FindUser(LoginLookup(body))
      case None => Failure(Reply(401, "Invalid name or password"))
      case Some(id) =>
        if db.users[id].password != body.password.value then Failure(Reply(401, "Invalid name or password"))
        else if UserModel.IsBlocked(db.users[id]) then Failure(Reply(403, "Account is blocked"))
        else Success(id)
  }

  /** When the body names a user, its email plays no part in the decision. */
  lemma LoginIgnoresEmailWhenNamed(db: Db, body: LoginBody, email: Option<string>)
    requires db.Valid() && body.name.Some?
    ensures Login(db, body) == Login(db, body.(email := email))
  {
  }

  /** A wrong password is refused the same way as an unknown user, and a blocked user is
      refused only after the password is right. */
  lemma BlockedOnlyWithRightPassword(db: Db, body: LoginBody)
    requires db.Valid()
    ensures Login(db, body) == Failure(Reply(403, "Account is blocked")) ==>
      body.password.Some? && UserModel.IsBlocked(db.users[db.FindUser(LoginLookup(body)).value])
      && db.users[db.FindUser(LoginLookup(body)).value].password == body.password.value
  {
  }

  /** A user just registered can log in with its email and password, since emails are unique. */
  method RegisterThenLogin(db: Db, body: RegisterBody) returns (registered: Reply, login: Result<int, Reply>)
    requires db.Valid()
    modifies db`users, db`nextUserId
    ensures db.Valid()
    ensures registered.status == 201 ==> login == Success(old(db.nextUserId))
  {
    registered := RegisterUser(db, body);
    if registered.status != 201 {
      login := Failure(registered);
      return;
    }
    var id := old(db.nextUserId);
    assert db.users[id].email == body.email.value;
    login := Login(db, LoginBody(None, body.email, body.password));
  }

  /** The body of `update_user`; `company` has no column and is not kept. */
  datatype ProfileBody = ProfileBody(name: Option<string>, email: Option<string>,
                                     phone: Option<string>, address: Option<string>)

  /** The caller's row after the fields the body carries; `phone` is stored as contact_number. */
  function ProfileUpdated(u: User, body: ProfileBody): (r: User)
    ensures r.name == (if body.name.Some? then body.name.value else u.name)
    ensures r.email == (if body.email.Some? then body.email.value else u.email)
    ensures r.contactNumber == (if body.phone.Some? then body.phone else u.contactNumber)
    ensures r.address == (if body.address.Some? then body.address else u.address)
    ensures r.(name := u.name, email := u.email, contactNumber := u.contactNumber, address := u.address) == u
  {
    u.(name := if body.name.Some? then body.name.value else u.name,
       email := if body.email.Some? then body.email.value else u.email,
       contactNumber := if body.phone.Some? then body.phone else u.contactNumber,
       address := if body.address.Some? then body.address else u.address)
  }

  /** `update_user`: a new email already in use is refused and nothing is saved. */
  method UpdateUser(db: Db, caller: Caller, body: ProfileBody) returns (r: Reply)
    requires db.Valid() && Authenticated(db, caller)
    modifies db`users
    ensures db.Valid()
    ensures var u := old(db.users[caller.id]);
      && (body.email.Some? && body.email.value != u.email && EmailTaken(old(db.users), body.email.value) ==>
            r == EmailExists && db.users == old(db.users))
      && (!(body.email.Some? && body.email.value != u.email && EmailTaken(old(db.users), body.email.value)) ==>
            r.status == 200 && db.users == old(db.users)[caller.id := ProfileUpdated(u, body)])
  {
    var u := db.users[caller.id];
    if body.email.Some? && body.email.value != u.email && EmailTaken(db.users, body.email.value) {
      return EmailExists;
    }
    var updated := ProfileUpdated(u, body);
    db.users := db.users[caller.id := updated];
    r := Reply(200, "");
  }

  /** `update_password`. */
  method UpdatePassword(db: Db, caller: Caller, current: Option<string>, replacement: Option<string>) returns (r: Reply)
    requires db.Valid() && Authenticated(db, caller)
    modifies db`users
    ensures db.Valid()
    ensures r.status != 200 ==> db.users == old(db.users)
    ensures current.None? || replacement.None? ==> r == MissingFields
    ensures current.Some? && replacement.Some? && current.value != old(db.users[caller.id]).password ==>
      r == Reply(401, "Current password is incorrect")
    ensures current.Some? && replacement.Some? && current.value == old(db.users[caller.id]).password ==>
      r == Reply(200, "Password updated successfully")
      && db.users == old(db.users)[caller.id := old(db.users[caller.id]).(password := replacement.value)]
  {
    if current.None? || replacement.None? {
      return MissingFields;
    }
    if current.value != db.users[caller.id].password {
      return Reply(401, "Current password is incorrect");
    }
    db.users := db.users[caller.id := db.users[caller.id].(password := replacement.value)];
    r := Reply(200, "Password updated successfully");
  }

  /** The start of the `IntegrityError` text a failed delete commit raises; `admin_required`
      answers it with 401. */
  const NotNullFailed := "(sqlite3.IntegrityError) NOT NULL constraint failed"

  /** `delete_user`: an admin may delete any other user. Its blacklist rows are deleted and
      committed first; the delete itself then fails while an inventory entry or a quotation
      still names the user, and the user stays. */
  method DeleteUser(db: Db, caller: Caller, userId: int) returns (r: Reply)
    requires db.Valid()
    modifies db`users, db`revoked, db`nextUserId
    ensures db.Valid()
    ensures r.status != 200 ==> db.users == old(db.users)
    ensures r.status != 200 && r.status != 401 ==> db.revoked == old(db.revoked)
    ensures caller.role != Admin ==> r == AdminRequired
    ensures caller.role == Admin && userId !in old(db.users) ==> r == NotFoundReply
    ensures caller.role == Admin && userId in old(db.users) && userId == caller.id ==>
      r == Reply(400, "Cannot delete your own admin account")
    ensures caller.role == Admin && userId in old(db.users) && userId != caller.id ==>
      && db.revoked == UserModel.WithoutTokensOf(old(db.revoked), userId)
      && (UserReferenced(db.inventory, db.quotations, userId) ==>
            r == Reply(401, NotNullFailed) && db.users == old(db.users))
      && (!UserReferenced(db.inventory, db.quotations, userId) ==>
            r == Reply(200, "User deleted successfully")
            && db.users == UserModel.WithoutUser(old(db.users), userId))
  {
    if caller.role != Admin {
      return AdminRequired;
    }
    if userId !in db.users {
      return NotFoundReply;
    }
    if userId == caller.id {
      return Reply(400, "Cannot delete your own admin account");
    }
    UserModel.RevokeAllTokens(db, userId);
    if UserReferenced(db.inventory, db.quotations, userId) {
      return Reply(401, NotNullFailed);
    }
    db.users := UserModel.WithoutUser(db.users, userId);
    db.nextUserId := NextIdAfterDelete(db.users, db.nextUserId);
    r := Reply(200, "User deleted successfully");
  }

  /** The `block_user` endpoint: the model's ValueError becomes a 400 carrying its text. */
  method BlockUser(db: Db, caller: Caller, userId: int, now: int) returns (r: Reply)
    requires db.Valid()
    modifies db`users, db`revoked
    ensures db.Valid()
    ensures r.status != 200 ==> db.users == old(db.users) && db.revoked == old(db.revoked)
    ensures caller.role != Admin ==> r == AdminRequired
    ensures caller.role == Admin && userId !in old(db.users) ==> r == NotFoundReply
    ensures caller.role == Admin && userId in old(db.users) ==>
      var blocked := UserModel.BlockedRow(old(db.users[userId]), caller.id, now);
      && (blocked.Failure? ==> r == Reply(400, UserModel.CannotBlockAdmin))
      && (blocked.Success? ==>
            r == Reply(200, "User blocked successfully")
            && db.users == old(db.users)[userId := blocked.value]
            && db.revoked == UserModel.WithoutTokensOf(old(db.revoked), userId))
  {
    if caller.role != Admin {
      return AdminRequired;
    }
    if userId !in db.users {
      return NotFoundReply;
    }
    var blocked := UserModel.BlockUser(db, userId, caller.id, now);
    if blocked.Failure? {
      return Reply(400, blocked.error);
    }
    r := Reply(200, "User blocked successfully");
  }

  /** The `unblock_user` endpoint: only a blocked user can be unblocked. */
  method UnblockUser(db: Db, caller: Caller, userId: int) returns (r: Reply)
    requires db.Valid()
    modifies db`users
    ensures db.Valid()
    ensures r.status != 200 ==> db.users == old(db.users)
    ensures caller.role != Admin ==> r == AdminRequired
    ensures caller.role == Admin && userId !in old(db.users) ==> r == NotFoundReply
    ensures caller.role == Admin && userId in old(db.users) && !UserModel.IsBlocked(old(db.users[userId])) ==>
      r == Reply(400, "User is not blocked")
    ensures caller.role == Admin && userId in old(db.users) && UserModel.IsBlocked(old(db.users[userId])) ==>
      r == Reply(200, "User unblocked successfully")
      && db.users == old(db.users)[userId := UserModel.UnblockedRow(old(db.users[userId]))]
  {
    if caller.role != Admin {
      return AdminRequired;
    }
    if userId !in db.users {
      return NotFoundReply;
    }
    if !UserModel.IsBlocked(db.users[userId]) {
      return Reply(400, "User is not blocked");
    }
    UserModel.UnblockUser(db, userId);
    r := Reply(200, "User unblocked successfully");
  }

  /** `get_blocked_users`: admins only; exactly the BLOCKED users. */
  function GetBlockedUsers(db: Db, caller: Caller): (r: Result<set<int>, Reply>)
    reads db
    ensures caller.role != Admin <==> r == Failure(Unauthorized)
    ensures caller.role == Admin ==> r.Success?
    ensures r.Success? ==> forall u :: u in r.value <==> u in db.users && UserModel.IsBlocked(db.users[u])
  {
    if caller.role != Admin then Failure(Unauthorized)
    else Success(set u | u in db.users && UserModel.IsBlocked(db.users[u]))
  }

  /** The `role` query argument of `get_users`: absent or empty means every user; otherwise it
      must be `supplier` or `admin` in any letter case. */
  function RoleFilter(role: Option<string>): (r: Result<Option<Role>, Reply>)
    ensures r == Success(None) <==> role.None? || role.value == ""
    ensures r == Success(Some(Supplier)) <==> role.Some? && Lower(role.value) == "supplier"
    ensures r == Success(Some(Admin)) <==> role.Some? && Lower(role.value) == "admin"
    ensures r.Failure? <==>
      role.Some? && role.value != "" && Lower(role.value) != "supplier" && Lower(role.value) != "admin"
    ensures r.Failure? ==> r.error == Reply(400, "Invalid role. Must be one of: ['supplier', 'admin']")
  {
    if role.None? || role.value == "" then Success(None)
    else if Lower(role.value) == "supplier" then Success(Some(Supplier))
    else if Lower(role.value) == "admin" then Success(Some(Admin))
    else Failure(Reply(400, "Invalid role. Must be one of: ['supplier', 'admin']"))
  }

  /** `get_users`: admins only, filtered by role when one is given. */
  function GetUsers(db: Db, caller: Caller, role: Option<string>): (r: Result<set<int>, Reply>)
    reads db
    ensures caller.role != Admin ==> r == Failure(Unauthorized)
    ensures caller.role == Admin && RoleFilter(role).Failure? ==> r == Failure(RoleFilter(role).error)
    ensures caller.role == Admin && RoleFilter(role).Success? ==> r.Success?
    ensures r.Success? ==> forall u :: u in r.value <==>
      u in db.users && (RoleFilter(role).value.Some? ==> db.users[u].role == RoleFilter(role).value.value)
  {
    if caller.role != Admin then Failure(Unauthorized)
    else
      match RoleFilter(role)
      case Failure(e) => Failure(e)
      case Success(None) => Success(db.users.Keys)
      case Success(Some(want)) => Success(set u | u in db.users && db.users[u].role == want)
  }

  /** The role filter ignores letter case. */
  lemma {:induction false} RoleFilterIgnoresCase(role: string)
    ensures RoleFilter(Some(Lower(role))) == RoleFilter(Some(role))
  {
    LowerIdempotent(role);
  }

  lemma {:induction false} LowerIdempotent(s: string)
    ensures Lower(Lower(s)) == Lower(s)
  {
    if s != [] {
      LowerIdempotent(s[1..]);
      assert Lower(s)[1..] == Lower(s[1..]);
    }
  }
}
