/** `POST /api/auth/register` (server/api/auth/register.post.ts). */
module Register {
  import opened Wrappers
  import opened Http
  import opened Db
  import opened Schemas
  import Password
  import Gate
  import Jwt
  import Login

  const EmailTaken := HttpError(409, "User with this email already exists")
  const DefaultRoleName: string := "user"

  /** The created user as the response shows it: no password. */
  datatype RegisteredUser = RegisteredUser(id: string, email: string, name: Option<string>, createdAt: nat)

  datatype RegisterResponse = RegisterResponse(status: nat, message: string, user: RegisteredUser)

  /** The row a registration inserts: active, not a super-admin, in no tenant, password hashed. */
  function NewUser(body: RegisterBody, now: nat, newId: string): User
  {
    User(newId, body.email, Password.HashPassword(body.password), body.name, true, false, None, now)
  }

  /** The assignment to the role named `user`, when that role exists. */
  function DefaultAssignment(t: Tables, userId: string): seq<UserRole>
  {
    match RoleByName(t, DefaultRoleName)
    case None => []
    case Some(role) => [UserRole(userId, role.id)]
  }

  /**
   * The register handler as a function of the tables; `newId` is the
   * identifier the database generates for the new row.
   */
  function RegisterStep(t: Tables, fmt: Formats, body: RegisterBody, now: nat, newId: string)
    : Effect<RegisterResponse>
  {
    if Gate.ValidateBody(body, Accepting((b: RegisterBody) => RegisterAccepts(fmt, b))).Failure? then
      Refuse(t, Gate.ValidationFailed)
    else if UserByEmail(t, body.email).Some? then Refuse(t, EmailTaken)
    else
      var user := NewUser(body, now, newId);
      Effect(Success(RegisterResponse(201, "User registered successfully",
                                      RegisteredUser(newId, body.email, body.name, now))),
             t.(users := t.users + [user], userRoles := t.userRoles + DefaultAssignment(t, newId)),
             Untouched)
  }

  /**
   * A body the schema refuses gives 400 and a taken email 409, both changing
   * nothing. Otherwise exactly one user is appended, with the hashed password
   * (never the plaintext), and exactly one assignment to the `user` role if
   * that role exists and none if it does not.
   */
  lemma RegisterOutcomes(t: Tables, fmt: Formats, body: RegisterBody, now: nat, newId: string)
    ensures var e := RegisterStep(t, fmt, body, now, newId);
            && (!RegisterAccepts(fmt, body) ==> e == Refuse(t, Gate.ValidationFailed))
            && (RegisterAccepts(fmt, body) && UserByEmail(t, body.email).Some? ==> e == Refuse(t, EmailTaken))
            && (e.result.Success? <==> RegisterAccepts(fmt, body) && UserByEmail(t, body.email).None?)
            && e.cookie == Untouched
    ensures var e := RegisterStep(t, fmt, body, now, newId);
            e.result.Success? ==>
              && e.result.value.status == 201
              && e.result.value.user == RegisteredUser(newId, body.email, body.name, now)
              && e.tables.users == t.users + [NewUser(body, now, newId)]
              && NewUser(body, now, newId).password != body.password
              && Password.VerifyPassword(body.password, NewUser(body, now, newId).password)
              && (RoleByName(t, DefaultRoleName).Some? ==>
                    e.tables.userRoles == t.userRoles + [UserRole(newId, RoleByName(t, DefaultRoleName).value.id)])
              && (RoleByName(t, DefaultRoleName).None? ==> e.tables.userRoles == t.userRoles)
              && e.tables == t.(users := e.tables.users, userRoles := e.tables.userRoles)
  {
    Password.HashVerifies(body.password, body.password);
  }

  /** A registration with a fresh id keeps the primary key of users and the join-table foreign keys. */
  lemma RegisterKeepsKeys(t: Tables, fmt: Formats, body: RegisterBody, now: nat, newId: string)
    requires FreshId(t, newId) && UniqueUserIds(t) && JoinKeysExist(t) && OwnersExist(t)
    ensures var t' := RegisterStep(t, fmt, body, now, newId).tables;
            UniqueUserIds(t') && JoinKeysExist(t') && OwnersExist(t')
  {
    var e := RegisterStep(t, fmt, body, now, newId);
    if e.result.Success? {
      var nu := NewUser(body, now, newId);
      var links := DefaultAssignment(t, newId);
      assert e.tables == t.(users := t.users + [nu], userRoles := t.userRoles + links);
      if RoleByName(t, DefaultRoleName).Some? {
        assert RoleByName(t, DefaultRoleName).value in t.roles;
      }
      AddUserKeepsKeys(t, nu, links);
    }
  }

  /** Registration keeps email addresses unique: the 409 check guards the key. */
  lemma RegisterKeepsEmailsUnique(t: Tables, fmt: Formats, body: RegisterBody, now: nat, newId: string)
    requires UniqueEmails(t)
    ensures UniqueEmails(RegisterStep(t, fmt, body, now, newId).tables)
  {
    var e := RegisterStep(t, fmt, body, now, newId);
    if e.result.Success? {
      var nu := NewUser(body, now, newId);
      assert e.tables.users == t.users + [nu];
      AppendKeepsUnique(t.users, nu, (u: User) => u.email);
    }
  }

  /**
   * Credentials that registered log in: the new account is found by its email,
   * is active and its password verifies, so login fails only with a 500, and
   * exactly when signing throws or the refresh token it signs is already
   * stored (the unique token column).
   */
  lemma RegisteredCanLogIn(t: Tables, cfg: Jwt.Config, fmt: Formats, body: RegisterBody,
                           now: nat, newId: string, later: nat, jti: string)
    requires RegisterStep(t, fmt, body, now, newId).result.Success?
    ensures var t' := RegisterStep(t, fmt, body, now, newId).tables;
            var login := Login.LoginStep(t', cfg, fmt, LoginBody(body.email, body.password), later, jti);
            login.result.Failure? ==> login.result.error == ConstraintViolation
    ensures var t' := RegisterStep(t, fmt, body, now, newId).tables;
            var login := Login.LoginStep(t', cfg, fmt, LoginBody(body.email, body.password), later, jti);
            login.result.Failure?
            <==> !Jwt.CanSign(cfg)
                 || Jwt.SignRefreshToken(cfg, Jwt.Payload(newId, body.email), later, jti) in t.refreshTokens
  {
    var t' := RegisterStep(t, fmt, body, now, newId).tables;
    var nu := NewUser(body, now, newId);
    assert t'.users == t.users + [nu];
    assert UserByEmail(t', body.email) == Some(nu);
    Password.HashVerifies(body.password, body.password);
  }

  /** The handler: validate, check the email, then insert the user and the default assignment. */
  method HandleRegister(db: Database, fmt: Formats, body: RegisterBody, now: nat, newId: string)
    returns (r: Result<RegisterResponse, HttpError>)
    modifies db`users, db`userRoles
    ensures var e := RegisterStep(old(db.Snapshot()), fmt, body, now, newId);
            r == e.result && db.Snapshot() == e.tables
  {
    if !RegisterAccepts(fmt, body) {
      return Failure(Gate.ValidationFailed);
    }
    var existing := UserByEmail(db.Snapshot(), body.email);
    if existing.Some? {
      return Failure(EmailTaken);
    }
    var hashed := Password.HashPassword(body.password);
    var defaultRole := RoleByName(db.Snapshot(), DefaultRoleName);
    db.users := db.users + [User(newId, body.email, hashed, body.name, true, false, None, now)];
    if defaultRole.Some? {
      db.userRoles := db.userRoles + [UserRole(newId, defaultRole.value.id)];
    }
    r := Success(RegisterResponse(201, "User registered successfully", RegisteredUser(newId, body.email, body.name, now)));
  }
}
