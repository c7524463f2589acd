/** `POST /api/users` (server/api/users/index.post.ts). */
module UsersCreate {
  import opened Wrappers
  import opened Http
  import opened Db
  import opened Schemas
  import Password
  import Gate
  import Jwt
  import Permissions

  const EmailTaken := HttpError(409, "User with this email already exists")
  const RequiredPermission: string := "users:create"

  datatype RoleRef = RoleRef(id: string, name: string)

  /** The created user as the response shows it: roles flattened, no password. */
  datatype CreatedUser = CreatedUser(
    id: string, email: string, name: Option<string>, isActive: bool, createdAt: nat, roles: seq<RoleRef>)

  datatype CreateUserResponse = CreateUserResponse(status: nat, data: CreatedUser)

  /** Every id names a role and none repeats: the nested insert meets its keys. */
  predicate AssignableRoles(t: Tables, roleIds: seq<string>)
  {
    (forall i :: 0 <= i < |roleIds| ==> RoleById(t, roleIds[i]).Some?) && Permissions.NoDuplicates(roleIds)
  }

  /** One assignment row per role id, in order. */
  function Assignments(userId: string, roleIds: seq<string>): (rows: seq<UserRole>)
    ensures |rows| == |roleIds|
    ensures forall i :: 0 <= i < |rows| ==> rows[i] == UserRole(userId, roleIds[i])
  {
    seq(|roleIds|, i requires 0 <= i < |roleIds| => UserRole(userId, roleIds[i]))
  }

  /** The id and name of each role, in order. */
  function RoleRefs(t: Tables, roleIds: seq<string>): (refs: seq<RoleRef>)
    requires AssignableRoles(t, roleIds)
    ensures |refs| == |roleIds|
    ensures forall i :: 0 <= i < |refs| ==> refs[i] == RoleRef(roleIds[i], RoleById(t, roleIds[i]).value.name)
  {
    seq(|roleIds|, i requires 0 <= i < |roleIds| => RoleRef(roleIds[i], RoleById(t, roleIds[i]).value.name))
  }

  /**
   * The create-user handler as a function of the tables: `authorization` is
   * the request's Authorization header and `newId` the identifier the
   * database generates.
   */
  function CreateUserStep(t: Tables, cfg: Jwt.Config, fmt: Formats, authorization: Option<string>,
                          body: CreateUserBody, now: nat, newId: string): Effect<CreateUserResponse>
  {
    match Gate.Admit(t, cfg, authorization, now, RequiredPermission)
    case Fail(e) => Refuse(t, e)
    case Pass => InsertUser(t, fmt, body, now, newId)
  }

  /** What the handler does once admitted: validate, check the email, insert. */
  function InsertUser(t: Tables, fmt: Formats, body: CreateUserBody, now: nat, newId: string)
    : Effect<CreateUserResponse>
  {
    if Gate.ValidateBody(body, Accepting((b: CreateUserBody) => CreateUserAccepts(fmt, b))).Failure? then
      Refuse(t, Gate.ValidationFailed)
    else if UserByEmail(t, body.email).Some? then Refuse(t, EmailTaken)
    else
      var roleIds := body.roleIds.GetOr([]);
      if !AssignableRoles(t, roleIds) then Refuse(t, ConstraintViolation)
      else
        var created := User(newId, body.email, Password.HashPassword(body.password), body.name,
                            true, false, None, now);
        Effect(Success(CreateUserResponse(201, CreatedUser(newId, body.email, body.name, true, now,
                                                           RoleRefs(t, roleIds)))),
               t.(users := t.users + [created], userRoles := t.userRoles + Assignments(newId, roleIds)),
               Untouched)
  }

  /**
   * Authentication, then the `users:create` permission, are decided before
   * the body is looked at; every refusal changes nothing, and a taken email
   * gives 409.
   */
  lemma CreateUserGates(t: Tables, cfg: Jwt.Config, fmt: Formats, authorization: Option<string>,
                        body: CreateUserBody, now: nat, newId: string)
    ensures var e := CreateUserStep(t, cfg, fmt, authorization, body, now, newId);
            var admit := Gate.Admit(t, cfg, authorization, now, RequiredPermission);
            && (e.result.Failure? ==> e.tables == t && e.cookie == Untouched)
            && (admit.Fail? ==> e.result == Failure(admit.error))
            && (admit == Pass && !CreateUserAccepts(fmt, body) ==> e.result == Failure(Gate.ValidationFailed))
            && (admit == Pass && CreateUserAccepts(fmt, body) && UserByEmail(t, body.email).Some? ==>
                  e.result == Failure(EmailTaken))
  {
  }

  /**
   * A created user is one new row with the hashed password, plus one
   * assignment per given role id in order (none when the list is absent or
   * empty); the response lists exactly those roles.
   */
  lemma CreateUserSuccess(t: Tables, cfg: Jwt.Config, fmt: Formats, authorization: Option<string>,
                          body: CreateUserBody, now: nat, newId: string)
    requires CreateUserStep(t, cfg, fmt, authorization, body, now, newId).result.Success?
    ensures var e := CreateUserStep(t, cfg, fmt, authorization, body, now, newId);
            var roleIds := body.roleIds.GetOr([]);
            && Gate.Admit(t, cfg, authorization, now, RequiredPermission) == Pass
            && CreateUserAccepts(fmt, body) && UserByEmail(t, body.email).None?
            && e.tables.users == t.users + [User(newId, body.email, Password.HashPassword(body.password),
                                                 body.name, true, false, None, now)]
            && Password.HashPassword(body.password) != body.password
            && e.tables.userRoles == t.userRoles + Assignments(newId, roleIds)
            && |e.result.value.data.roles| == |roleIds|
            && (forall i :: 0 <= i < |roleIds| ==>
                  var r := RoleById(t, roleIds[i]);
                  r.Some? && e.result.value.data.roles[i] == RoleRef(roleIds[i], r.value.name))
            && e.result.value.status == 201
            && e.tables == t.(users := e.tables.users, userRoles := e.tables.userRoles)
  {
  }

  /** Inserting a user with a fresh id keeps the primary key of users and the foreign keys. */
  lemma InsertUserKeepsKeys(t: Tables, fmt: Formats, body: CreateUserBody, now: nat, newId: string)
    requires FreshId(t, newId) && UniqueUserIds(t) && JoinKeysExist(t) && OwnersExist(t)
    ensures var t' := InsertUser(t, fmt, body, now, newId).tables;
            UniqueUserIds(t') && JoinKeysExist(t') && OwnersExist(t')
  {
    var e := InsertUser(t, fmt, body, now, newId);
    if e.result.Success? {
      var roleIds := body.roleIds.GetOr([]);
      var nu := User(newId, body.email, Password.HashPassword(body.password), body.name, true, false, None, now);
      InsertUserWrites(t, fmt, body, now, newId);
      AssignmentsToRoles(t, newId, roleIds);
      AddUserKeepsKeys(t, nu, Assignments(newId, roleIds));
    }
  }

  /** A successful insert appends the user and its assignments, to roles that all exist. */
  lemma InsertUserWrites(t: Tables, fmt: Formats, body: CreateUserBody, now: nat, newId: string)
    requires InsertUser(t, fmt, body, now, newId).result.Success?
    ensures AssignableRoles(t, body.roleIds.GetOr([]))
    ensures InsertUser(t, fmt, body, now, newId).tables
            == t.(users := t.users + [User(newId, body.email, Password.HashPassword(body.password), body.name,
                                           true, false, None, now)],
                  userRoles := t.userRoles + Assignments(newId, body.roleIds.GetOr([])))
  {
  }

  /** Creating users keeps email addresses unique: the 409 check guards the key. */
  lemma InsertUserKeepsEmailsUnique(t: Tables, fmt: Formats, body: CreateUserBody, now: nat, newId: string)
    requires UniqueEmails(t)
    ensures UniqueEmails(InsertUser(t, fmt, body, now, newId).tables)
  {
    var e := InsertUser(t, fmt, body, now, newId);
    if e.result.Success? {
      var nu := User(newId, body.email, Password.HashPassword(body.password), body.name, true, false, None, now);
      assert e.tables.users == t.users + [nu];
      AppendKeepsUnique(t.users, nu, (u: User) => u.email);
    }
  }

  /** Every assignment row links the new user to a role that exists. */
  lemma AssignmentsToRoles(t: Tables, userId: string, roleIds: seq<string>)
    requires AssignableRoles(t, roleIds)
    ensures forall l :: l in Assignments(userId, roleIds) ==> l.userId == userId && RoleById(t, l.roleId).Some?
  {
    var links := Assignments(userId, roleIds);
    forall l | l in links
      ensures l.userId == userId && RoleById(t, l.roleId).Some?
    {
      var i :| 0 <= i < |links| && links[i] == l;
      assert RoleById(t, roleIds[i]).Some?;
    }
  }

  /** The handler: gates, validation, the email check, then the insert. */
  method HandleCreateUser(db: Database, event: HttpEvent, cfg: Jwt.Config, fmt: Formats,
                          body: CreateUserBody, now: nat, newId: string)
    returns (r: Result<CreateUserResponse, HttpError>)
    modifies db`users, db`userRoles, event`contextUser
    ensures var e := CreateUserStep(old(db.Snapshot()), cfg, fmt, event.authorization, body, now, newId);
            r == e.result && db.Snapshot() == e.tables
    ensures event.contextUser
            == Gate.AttachUser(old(event.contextUser), Gate.Authenticate(old(db.Snapshot()), cfg, event.authorization, now))
  {
    var auth := Gate.RequireAuth(event, db.Snapshot(), cfg, now);
    if auth.Failure? {
      return Failure(auth.error);
    }
    var allowed := Gate.RequirePermission(event, db.Snapshot(), RequiredPermission);
    if allowed.Fail? {
      return Failure(allowed.error);
    }
    assert Gate.Admit(db.Snapshot(), cfg, event.authorization, now, RequiredPermission) == Pass;
    if !CreateUserAccepts(fmt, body) {
      return Failure(Gate.ValidationFailed);
    }
    var existing := UserByEmail(db.Snapshot(), body.email);
    if existing.Some? {
      return Failure(EmailTaken);
    }
    var hashed := Password.HashPassword(body.password);
    var roleIds := body.roleIds.GetOr([]);
    if !AssignableRoles(db.Snapshot(), roleIds) {
      return Failure(ConstraintViolation);
    }
    var roles := RoleRefs(db.Snapshot(), roleIds);
    db.users := db.users + [User(newId, body.email, hashed, body.name, true, false, None, now)];
    db.userRoles := db.userRoles + Assignments(newId, roleIds);
    r := Success(CreateUserResponse(201, CreatedUser(newId, body.email, body.name, true, now, roles)));
  }
}
