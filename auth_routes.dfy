/** The account routes of routes/auth.js: `/me`, `/register`, `/login` and `/admin_login`.
    Password hashing and comparison and token signing are outside the model: the hash
    is a parameter, the comparison an oracle, and a token is represented by the claims
    it is signed over. */
module AuthRoutes {
  import opened Common
  import opened Db
  import opened Guard

  /** `bcrypt.compare(password, hash)`. */
  type Matcher = (string, string) -> bool

  /** The `users` columns `/me` selects. */
  datatype Account = Account(
    id: int, email: string, name: Option<string>, role: string, banned: int, isAdmin: int,
    bio: Option<string>, avatarUrl: Option<string>, points: Option<int>)

  /** A signed-in reply: the token's claims and the `user` object. */
  datatype SignedIn = SignedIn(token: Claims, id: int, email: string, role: string, profile: Option<ProfileRow>)

  function BadRequest(message: string): HttpError {
    HttpError(400, None, message)
  }

  const MissingCredentials := BadRequest("Email and password required")
  const InvalidCredentials := BadRequest("Invalid email or password")
  const InvalidAdminCredentials := BadRequest("Invalid admin credentials")

  function AccountOf(id: int, row: UserRow): Account {
    Account(id, row.email, row.name, row.role, row.banned, row.isAdmin, row.bio, row.avatarUrl, row.points)
  }

  // ---------------------------------------------------------------------------
  // GET /me

  function MeHandler(users: map<int, UserRow>, u: Identity): Result<Account> {
    if u.id !in users then Err(HttpError(404, None, "User not found"))
    else Ok(AccountOf(u.id, users[u.id]))
  }

  function Me(t: Tables, header: Option<string>, verify: Verifier): Result<Account> {
    match Run(header, verify, t.users, [])
    case Err(e) => Err(e)
    case Ok(u) => MeHandler(t.users, u)
  }

  /** The 404 cannot happen: the row `authenticate` just read is still there. */
  lemma MeAfterAuthenticate(t: Tables, header: Option<string>, verify: Verifier)
    ensures Me(t, header, verify).Ok? <==> Authenticate(header, verify, t.users).Ok?
    ensures Me(t, header, verify).Ok? ==>
      var id := Authenticate(header, verify, t.users).value.id;
      Me(t, header, verify).value == AccountOf(id, t.users[id])
  {
  }

  // ---------------------------------------------------------------------------
  // POST /register

  /** `role || "user"`. */
  function RoleOrUser(role: Option<string>): (r: string)
    ensures r != ""
  {
    if Present(role) then role.value else "user"
  }

  function NewUser(email: string, hash: string, role: Option<string>): UserRow {
    UserRow(email, hash, RoleOrUser(role), 0, 0, None, None, Some(0), None)
  }

  /** The profile inserted beside a registered user; the other columns take their defaults. */
  function NewProfile(): ProfileRow {
    ProfileRow(Some(""), Some(""), None, Some(0), None, "beginner", None, 0, 0, 0)
  }

  /** `hash` is what `bcrypt.hash(password, 10)` returns. */
  function Register(t: Tables, email: Option<string>, password: Option<string>, role: Option<string>, hash: string): (r: Outcome<SignedIn>)
    ensures r.reply.Err? ==> r.tables == t && r.reply.error.status == 400
    ensures r.reply.Ok? ==> r.reply.value.id == t.nextUserId && r.reply.value.role == RoleOrUser(role)
    ensures !Present(email) || !Present(password) ==> r == Outcome(t, Err(MissingCredentials))
    ensures Present(email) && Present(password) && EmailTaken(t.users, email.value) ==>
      r == Outcome(t, Err(BadRequest("Email already registered")))
    ensures Present(email) && Present(password) && !EmailTaken(t.users, email.value) ==>
      && r.reply.Ok?
      && r.tables == t.(users := t.users[t.nextUserId := NewUser(email.value, hash, role)],
                        profiles := t.profiles[t.nextUserId := NewProfile()],
                        nextUserId := t.nextUserId + 1)
  {
    if !Present(email) || !Present(password) then Outcome(t, Err(MissingCredentials))
    else if EmailTaken(t.users, email.value) then Outcome(t, Err(BadRequest("Email already registered")))
    else
      var id := t.nextUserId;
      var tables := t.(users := t.users[id := NewUser(email.value, hash, role)],
                       profiles := t.profiles[id := NewProfile()],
                       nextUserId := id + 1);
      Outcome(tables, Ok(SignedIn(Claims(Some(id), email, Some(RoleOrUser(role)), None), id, email.value, RoleOrUser(role), None)))
  }

  method PostRegister(db: Database, email: Option<string>, password: Option<string>, role: Option<string>, hash: string)
      returns (reply: Result<SignedIn>)
    requires db.Valid()
    modifies db
    ensures db.Valid()
    ensures Outcome(db.Snapshot(), reply) == Register(old(db.Snapshot()), email, password, role, hash)
  {
    if !Present(email) || !Present(password) {
      return Err(MissingCredentials);
    }
    if EmailTaken(db.users, email.value) {
      return Err(BadRequest("Email already registered"));
    }
    var id := db.InsertUser(NewUser(email.value, hash, role));
    db.InsertProfile(id, NewProfile());
    reply := Ok(SignedIn(Claims(Some(id), email, Some(RoleOrUser(role)), None), id, email.value, RoleOrUser(role), None));
  }

  /** A taken email is refused and nothing is inserted. */
  lemma RegisterRefusesTakenEmail(t: Tables, email: string, password: Option<string>, role: Option<string>, hash: string)
    requires EmailTaken(t.users, email)
    ensures Register(t, Some(email), password, role, hash).reply.Err?
    ensures Register(t, Some(email), password, role, hash).tables == t
  {
  }

  /** Registration adds exactly one user, not an administrator, with its profile, and
      keeps every user paired with a profile. */
  lemma RegisterAddsOneUser(t: Tables, email: string, password: string, role: Option<string>, hash: string)
    requires Consistent(t)
    requires email != "" && password != "" && !EmailTaken(t.users, email)
    ensures var r := Register(t, Some(email), Some(password), role, hash);
      var id := t.nextUserId;
      && r.reply.Ok? && r.reply.value.id == id
      && id !in t.users && r.tables.users == t.users[id := r.tables.users[id]]
      && r.tables.users[id].email == email && r.tables.users[id].isAdmin == 0
      && r.tables.users[id].role == RoleOrUser(role)
      && r.tables.profiles == t.profiles[id := NewProfile()]
      && r.tables.tricks == t.tricks
      && Consistent(r.tables)
  {
  }

  // ---------------------------------------------------------------------------
  // POST /login and POST /admin_login

  /** The role `/login` reports: it follows `is_admin`, not the stored role. */
  function ReportedRole(row: UserRow): string {
    if row.isAdmin != 0 then "admin" else "user"
  }

  ghost function ProfileOf(t: Tables, id: int): Option<ProfileRow> {
    if id in t.profiles then Some(t.profiles[id]) else None
  }

  ghost function Login(t: Tables, email: Option<string>, password: Option<string>, matches: Matcher): (r: Result<SignedIn>)
    ensures !Present(email) || !Present(password) ==> r == Err(MissingCredentials)
    ensures Present(email) && Present(password) && r.Err? ==> r.error == InvalidCredentials
    ensures r.Ok? ==> (Present(email) && Present(password) && r.value.id in t.users
      && r.value.email == email.value && matches(password.value, t.users[r.value.id].password))
  {
    if !Present(email) || !Present(password) then Err(MissingCredentials)
    else match UserByEmail(t.users, email.value)
      case None => Err(InvalidCredentials)
      case Some(id) =>
        var row := t.users[id];
        if !matches(password.value, row.password) then Err(InvalidCredentials)
        else
          var role := ReportedRole(row);
          Ok(SignedIn(Claims(Some(id), Some(row.email), Some(role), None), id, row.email, role, ProfileOf(t, id)))
  }

  /** An unknown email and a wrong password get the same reply. */
  lemma LoginHidesWhichCheckFailed(t: Tables, email: string, password: string, matches: Matcher)
    requires email != "" && password != ""
    requires !EmailTaken(t.users, email) ||
      (UserByEmail(t.users, email).Some? && !matches(password, t.users[UserByEmail(t.users, email).value].password))
    ensures Login(t, Some(email), Some(password), matches) == Err(InvalidCredentials)
  {
  }

  /** Login succeeds exactly for a stored email whose hash matches the password, and the
      role it reports (also the token's role) is "admin" exactly when `is_admin` is set. */
  lemma LoginRole(t: Tables, email: string, password: string, matches: Matcher, id: int)
    requires EmailsUnique(t.users) && email != "" && password != ""
    requires id in t.users && t.users[id].email == email
    ensures Login(t, Some(email), Some(password), matches).Ok? <==> matches(password, t.users[id].password)
    ensures Login(t, Some(email), Some(password), matches).Ok? ==>
      && Login(t, Some(email), Some(password), matches).value.id == id
      && (Login(t, Some(email), Some(password), matches).value.role == "admin" <==> t.users[id].isAdmin != 0)
      && Login(t, Some(email), Some(password), matches).value.token.role == Some(Login(t, Some(email), Some(password), matches).value.role)
  {
    UserByEmailUnique(t.users, email, id);
  }

  /** Whatever role was asked for at registration, the new account logs in as "user". */
  lemma RegisterThenLogin(t: Tables, email: string, password: string, role: Option<string>, hash: string, matches: Matcher)
    requires WellFormed(t)
    requires email != "" && password != "" && !EmailTaken(t.users, email)
    requires matches(password, hash)
    ensures var r := Register(t, Some(email), Some(password), role, hash);
      var l := Login(r.tables, Some(email), Some(password), matches);
      r.reply.Ok? && l.Ok? && l.value.id == r.reply.value.id && l.value.role == "user"
      && l.value.profile == Some(NewProfile())
  {
    var r := Register(t, Some(email), Some(password), role, hash);
    var id := t.nextUserId;
    assert WellFormed(r.tables);
    UserByEmailUnique(r.tables.users, email, id);
  }

  ghost predicate AdminWithEmail(users: map<int, UserRow>, email: string) {
    exists id :: id in users && users[id].email == email && users[id].isAdmin == 1
  }

  /** `SELECT * FROM users WHERE email = ? AND is_admin = 1`. */
  ghost function AdminLogin(t: Tables, email: Option<string>, password: Option<string>, matches: Matcher): (r: Result<SignedIn>)
    ensures !Present(email) || !Present(password) ==> r == Err(MissingCredentials)
    ensures Present(email) && Present(password) && r.Err? ==> r.error == InvalidAdminCredentials
    ensures r.Ok? ==> (Present(email) && Present(password) && r.value.id in t.users
      && t.users[r.value.id].email == email.value && t.users[r.value.id].isAdmin == 1
      && r.value.role == "admin" && r.value.token.isAdmin == Some(true)
      && matches(password.value, t.users[r.value.id].password))
  {
    if !Present(email) || !Present(password) then Err(MissingCredentials)
    else if !AdminWithEmail(t.users, email.value) then Err(InvalidAdminCredentials)
    else
      var id :| id in t.users && t.users[id].email == email.value && t.users[id].isAdmin == 1;
      var row := t.users[id];
      if !matches(password.value, row.password) then Err(InvalidAdminCredentials)
      else Ok(SignedIn(Claims(Some(id), Some(row.email), None, Some(row.isAdmin == 1)), id, row.email, "admin", ProfileOf(t, id)))
  }

  /** With distinct emails, the admin login succeeds exactly for the administrator
      account with that email whose hash matches the password, and signs that account in. */
  lemma AdminLoginSucceeds(t: Tables, email: string, password: string, matches: Matcher, id: int)
    requires EmailsUnique(t.users) && email != "" && password != ""
    requires id in t.users && t.users[id].email == email
    ensures AdminLogin(t, Some(email), Some(password), matches).Ok?
      <==> t.users[id].isAdmin == 1 && matches(password, t.users[id].password)
    ensures AdminLogin(t, Some(email), Some(password), matches).Ok? ==>
      AdminLogin(t, Some(email), Some(password), matches).value.id == id
  {
    if AdminWithEmail(t.users, email) {
      var other :| other in t.users && t.users[other].email == email && t.users[other].isAdmin == 1;
      assert other == id;
    }
  }

  /** With distinct emails, an unknown email never opens the admin login. */
  lemma AdminLoginNeedsAccount(t: Tables, email: string, password: Option<string>, matches: Matcher)
    requires !EmailTaken(t.users, email)
    ensures AdminLogin(t, Some(email), password, matches).Err?
    ensures email != "" && Present(password) ==>
      AdminLogin(t, Some(email), password, matches) == Err(InvalidAdminCredentials)
  {
  }

  /** An account whose `is_admin` is not 1 cannot use the admin login, even with the
      right password and the role "admin". */
  lemma AdminLoginNeedsFlag(t: Tables, email: string, password: Option<string>, matches: Matcher, id: int)
    requires EmailsUnique(t.users)
    requires id in t.users && t.users[id].email == email && t.users[id].isAdmin != 1
    ensures AdminLogin(t, Some(email), password, matches).Err?
    ensures email != "" && Present(password) ==>
      AdminLogin(t, Some(email), password, matches) == Err(InvalidAdminCredentials)
  {
  }

  /** After `initDB` on a store without the admin account, the bootstrap password opens
      the admin login. */
  lemma BootstrapAdminCanLogIn(t: Tables, adminHash: string, matches: Matcher)
    requires WellFormed(t) && !EmailTaken(t.users, AdminEmail)
    requires matches("admin", adminHash)
    ensures AdminLogin(Initialized(t, adminHash), Some(AdminEmail), Some("admin"), matches).Ok?
  {
    var init := Initialized(t, adminHash);
    InitializedConsistent(t, adminHash);
    assert init.users[t.nextUserId] == AdminUser(adminHash);
    assert AdminWithEmail(init.users, AdminEmail);
    UserByEmailUnique(init.users, AdminEmail, t.nextUserId);
  }
}
