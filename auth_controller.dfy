/**
 * Login and self-registration (backend/controllers/authController.js).
 * Password hashing and comparison and token signing are library calls:
 * the stored hash of a new password is a parameter, the comparison is the
 * function `compare(plain, hash)`, and a token is modelled by the claims it
 * is signed over.
 */
module AuthController {
  import opened Wrappers
  import opened Models
  import opened Store
  import opened JsStrings

  // ---------------------------------------------------------------------
  // Login
  // ---------------------------------------------------------------------

  /** How long an issued token stays valid. */
  const TokenLifetime: string := "30d"

  /** What a token is signed over: the user id, with its expiry. */
  datatype Claims = Claims(id: Id, expiresIn: string)

  /** The body of a successful login. */
  datatype Session = Session(
    id: Id, name: string, email: string, role: string, department: Option<string>, token: Claims)

  datatype LoginOutcome = LoggedIn(session: Session) | NotApproved | InvalidCredentials

  const InvalidCredentialsMessage: string := "Invalid email or password"
  const PendingApprovalMessage: string := "Account pending approval. Please contact administrator."

  /**
   * The decision over the looked-up account: the password is checked first,
   * the approval flag second.
   */
  function LoginDecision(found: Option<User>, password: string, compare: (string, string) -> bool): (r: LoginOutcome)
    ensures r.InvalidCredentials? <==> found.None? || !compare(password, found.value.password)
    ensures r.NotApproved? <==> found.Some? && compare(password, found.value.password) && !found.value.isApproved
    ensures r.LoggedIn? ==>
      && found.Some? && found.value.isApproved
      && r.session == Session(found.value.id, found.value.name, found.value.email,
                              found.value.role, found.value.department,
                              Claims(found.value.id, TokenLifetime))
  {
    if found.Some? && compare(password, found.value.password) then
      var u := found.value;
      if !u.isApproved then NotApproved
      else LoggedIn(Session(u.id, u.name, u.email, u.role, u.department, Claims(u.id, TokenLifetime)))
    else InvalidCredentials
  }

  /** An unapproved account with a wrong password sees 401, not 403: nothing reveals the pending state. */
  lemma WrongPasswordHidesApproval(u: User, password: string, compare: (string, string) -> bool)
    requires !compare(password, u.password)
    ensures LoginDecision(Some(u), password, compare) == InvalidCredentials
  {
  }

  /** What Sequelize throws for a `where` condition whose value is `undefined`. */
  const UndefinedEmailMessage: string := "WHERE parameter \"email\" has invalid \"undefined\" value"
  /** What bcrypt's `compare` rejects with when the plain text is not a string. */
  const IllegalArgumentsMessage: string := "Illegal arguments: undefined, string"

  /**
   * `authUser`: look the account up by email, then apply the decision. A body
   * without `email` makes the lookup throw, and a body without `password`
   * makes the comparison reject once an account is found; the catch turns
   * either into a 500 carrying the error's message.
   */
  method AuthUser(db: Db, email: Option<string>, password: Option<string>, compare: (string, string) -> bool)
    returns (r: Reply<Session>)
    ensures r.Ok? || r.code == 401 || r.code == 403 || r.code == 500
    ensures email.None? ==> r == Fail(500, UndefinedEmailMessage)
    ensures email.Some? && !EmailTaken(db.users, email.value) ==> r == Fail(401, InvalidCredentialsMessage)
    ensures email.Some? && EmailTaken(db.users, email.value) && password.None? ==>
      r == Fail(500, IllegalArgumentsMessage)
    ensures r.Fail? && r.code == 500 ==> email.None? || password.None?
    ensures r.Ok? ==>
      && r.code == 200 && email.Some? && password.Some?
      && (exists k :: k in db.users && db.users[k].email == email.value &&
                      LoginDecision(Some(db.users[k]), password.value, compare) == LoggedIn(r.body))
    ensures r.Fail? && r.code == 403 ==>
      && r.message == PendingApprovalMessage && email.Some? && password.Some?
      && (exists k :: k in db.users && db.users[k].email == email.value &&
                      compare(password.value, db.users[k].password) && !db.users[k].isApproved)
    ensures email.Some? && password.Some? ==>
      forall k :: k in db.users && db.users[k].email == email.value && EmailsUnique(db.users) ==>
        r == LoginReply(LoginDecision(Some(db.users[k]), password.value, compare))
  {
    if email.None? {
      return Fail(500, UndefinedEmailMessage);
    }
    var found: Option<User> := None;
    if EmailTaken(db.users, email.value) {
      var k :| k in db.users && db.users[k].email == email.value;
      found := Some(db.users[k]);
    }
    if found.Some? && password.None? {
      return Fail(500, IllegalArgumentsMessage);
    }
    r := LoginReply(LoginDecision(found, password.GetOr(""), compare));
  }

  function LoginReply(o: LoginOutcome): Reply<Session> {
    match o
    case LoggedIn(s) => Ok(200, s)
    case NotApproved => Fail(403, PendingApprovalMessage)
    case InvalidCredentials => Fail(401, InvalidCredentialsMessage)
  }

  // ---------------------------------------------------------------------
  // Self-registration
  // ---------------------------------------------------------------------

  /** The stored role: a requested 'admin' becomes 'lecturer', and an absent one defaults to 'lecturer'. */
  function RegisteredRole(requested: Option<string>): (r: string)
    ensures r != "admin"
    ensures r == "lecturer" <==>
      !Truthy(requested) || requested.value == "admin" || requested.value == "lecturer"
    ensures Truthy(requested) && requested.value != "admin" ==> r == requested.value
  {
    var downgraded := if requested == Some("admin") then Some("lecturer") else requested;
    Or(downgraded, "lecturer")
  }

  datatype RegisterBody = RegisterBody(
    name: string, email: string, password: string, role: Option<string>, department: Option<string>)

  /** The response of a registration: no token, the account must wait for approval. */
  datatype Registered = Registered(id: Id, name: string, email: string, message: string)

  const RegisteredMessage: string := "Registration successful. Account pending approval."
  const UserExistsMessage: string := "User already exists"

  /** The row a self-registration inserts. */
  function SelfRegistered(id: Id, body: RegisterBody, hashed: string): (u: User)
    ensures u.id == id && u.name == body.name && u.email == body.email && u.password == hashed
    ensures u.role == RegisteredRole(body.role) && u.role != "admin"
    ensures !u.isApproved
    ensures u.department == (if Truthy(body.department) then body.department else None)
    ensures u.designation == None
  {
    User(id, body.name, body.email, hashed, RegisteredRole(body.role),
         OrOpt(body.department, None), None, false)
  }

  /**
   * `registerUser`: a taken email is refused with 400 and nothing is inserted;
   * otherwise an unapproved, never-admin account is inserted under `freshId`.
   */
  method RegisterUser(db: Db, body: RegisterBody, freshId: Id, hashed: string) returns (r: Reply<Registered>)
    requires db.Valid() && freshId !in db.users
    modifies db
    ensures db.Valid()
    ensures EmailTaken(old(db.users), body.email) ==>
      r == Fail(400, UserExistsMessage) && db.users == old(db.users)
    ensures !EmailTaken(old(db.users), body.email) ==>
      && r == Ok(201, Registered(freshId, body.name, body.email, RegisteredMessage))
      && db.users == old(db.users)[freshId := SelfRegistered(freshId, body, hashed)]
    ensures AdminIds(db.users) == AdminIds(old(db.users))
    ensures ApprovedIds(db.users) == ApprovedIds(old(db.users))
    ensures db.tasks == old(db.tasks) && db.leaves == old(db.leaves)
    ensures ReferencesResolve(old(db.users), old(db.tasks), old(db.leaves)) ==>
      ReferencesResolve(db.users, db.tasks, db.leaves)
  {
    if EmailTaken(db.users, body.email) {
      r := Fail(400, UserExistsMessage);
      return;
    }
    var u := SelfRegistered(freshId, body, hashed);
    db.users := db.users[freshId := u];
    r := Ok(201, Registered(u.id, u.name, u.email, RegisteredMessage));
  }
}
