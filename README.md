# nuxt-base-project: authentication and authorisation core in Dafny

This project models the server-side authentication and authorisation core of
the nuxt-base-project application, together with the validators, list
handlers, client stores and seed script around it, and proves properties of
that model.

- **Tables** (`db.dfy`): every Prisma table the core touches is held in
  memory. Users, roles, permissions, tenants, settings and theme templates
  are sequences of rows, looked up by their unique keys. The two join tables
  are sequences of pairs. Refresh-token records are a map keyed by the token
  string, which is the table's unique column. `Db.Database` is a class with
  one field per table; its `Snapshot()` gives the tables as a value.
- **Handlers**: each API route is a value-level step function that takes
  the tables to an `Effect`: the answer (a success or an HTTP error), the
  tables afterwards and what was written to the `refresh_token` cookie. Each
  route also has a `Handle…` method that runs the route step by step against
  a `Database` and a request event, and is proved to do exactly what the
  step function says. The properties are lemmas about the step functions.
- **Tokens** (`jwt.dfy`, `token_codec.dfy`): `parseDuration`, the
  refresh-token expiry, the Bearer header and the cookie attributes follow
  `server/utils/jwt.ts`. JSON Web Tokens (RFC 7519, HS256) are modelled as
  an ideal codec: a token is the serialised claims plus the signing key. It
  verifies under that key only, until the second its `exp` claim names
  (the `jsonwebtoken` rule). Like the library, signing has no random part,
  so two signings of one payload within one second give the same string.
- **Gates** (`gate.dfy`, `permissions.dfy`, `tenancy.dfy`): `requireAuth`,
  `requirePermission`, the permission resolver and the tenant helpers.
- **Routes**:
  - login, refresh (rotation with reuse detection) and logout;
  - register;
  - user, role and tenant creation;
  - user, role and tenant listing.
- **Client** (`auth_store.dfy`, `theme_store.dfy`, `route_guard.dfy`): the
  Pinia auth and theme stores are classes whose actions assign their fields.
  The route middleware is a decision function.
- **Seed** (`seed.dfy`): `prisma/seed.ts` as a sequence of keyed upserts and
  find-or-creates, with proofs that re-running it is harmless.

The model follows the code wherever the code and its documentation disagree:

- Login refuses an inactive account with its own message, "Account is
  deactivated", and it checks this before the password
  (`server/api/auth/login.post.ts:36-42`). An inactive account can therefore
  be told apart from a wrong password.
- Reuse detection revokes every refresh record of the user, including
  records that are already revoked (`server/api/auth/refresh.post.ts:51-54`).

## Model

| member | source | states |
|---|---|---|
| Jwt.UnitSwitchValue | server/utils/jwt.ts:24-35 | each of the units `s`, `m`, `h`, `d` multiplies the numeral by that unit's length in milliseconds |
| Jwt.ParseDurationValue | server/utils/jwt.ts:17-36 | a string matching `^(\d+)(s\|m\|h\|d)$` parses to its numeral times its unit; every other string falls back to 15 minutes |
| Jwt.ParseDurationOfNumeral | server/utils/jwt.ts:17-36 | the decimal numeral of `n` followed by a unit letter matches the pattern and parses back to `n` units |
| Jwt.DefaultDurations | server/utils/jwt.ts:44-58 | the default lifetimes `15m` and `7d` are 900000 ms and 604800000 ms |
| Jwt.ExpiresInSeconds | server/utils/jwt.ts:44-58 | the signing library reads no lifetime from a string over 100 characters (signing throws); on the `parseDuration` pattern it reads exactly the lifetime `parseDuration` gives, in whole seconds |
| Jwt.DefaultLifetimes | server/utils/jwt.ts:44-58 | with neither lifetime configured, the library reads 900 s and 604800 s and both signings succeed |
| Jwt.RefreshTokenExpiry | server/utils/jwt.ts:88-95 | a remember-me token expires 30 days after now, any other after the parsed refresh lifetime; never before now |
| Jwt.CookieMaxAgeMatchesExpiry | server/utils/jwt.ts:118-135 | the cookie's Max-Age is the stored lifetime of the same token in whole seconds, 2592000 with remember-me |
| Jwt.SetRefreshTokenCookie | server/utils/jwt.ts:118-135 | the response carries exactly the `refresh_token` cookie: the token, httpOnly, secure in production only, SameSite lax, path `/`, that Max-Age |
| Jwt.ClearRefreshTokenCookie | server/utils/jwt.ts:140-147 | the response deletes `refresh_token` with the same attributes it was set with |
| Jwt.ExtractAccessToken | server/utils/jwt.ts:100-106 | a token is extracted iff the header is present and starts with the case-sensitive `Bearer `; the token is what follows the prefix |
| Jwt.ExtractBearerRoundTrip | server/utils/jwt.ts:100-106 | the header `Bearer <token>` gives back `<token>` |
| Jwt.RefreshTokenFromCookie | server/utils/jwt.ts:111-113 | a token is read iff the cookie is present and non-empty, and it is the cookie's value |
| Jwt.Verify | server/utils/jwt.ts:64-83 | a token that verifies has not expired: the current second is before its `exp` |
| Jwt.SignVerifyRoundTrip | server/utils/jwt.ts:44-83 | a token signed with the lifetime the library read verifies under its key, giving back the payload, `iat`, `exp` = `iat` + that lifetime and the id, exactly until its `exp` second, and is refused from then on |
| Jwt.VerifyWrongKey | server/utils/jwt.ts:64-83 | a token never verifies under a key other than the signing key, so an access token is no refresh token when the secrets differ |
| Jwt.SignDistinguishesIds | server/utils/jwt.ts:54-58 | two signings that differ only in the token id give different strings |
| Jwt.TokenIdOfSigned | server/utils/jwt.ts:54-58 | a signed token carries the id it was signed with |
| Jwt.SameSecondSameToken | server/utils/jwt.ts:44-58 | with no token id, two signings of one payload within the same second give the same access token and the same refresh token |
| TokenCodec.DecodeEncode | server/utils/jwt.ts:44-83 | reading back the serialised claim fields gives every field and the unread remainder |
| TokenCodec.ReadEscaped | server/utils/jwt.ts:44-83 | an escaped field followed by its terminator reads back as that field, whatever follows |
| Password.HashPassword | server/api/auth/register.post.ts:23 | the stored hash is never the plaintext |
| Password.HashVerifies | server/api/auth/login.post.ts:45 | a hash verifies for the password it was made from and for no other |
| Http.HttpEvent.constructor | server/utils/auth.ts:13-17 | a fresh request event carries its headers and cookie, no context user and no cookie write |
| Db.Refuse | server/utils/auth.ts:26-32 | a thrown error fails the request and writes neither the tables nor the cookie |
| Db.Find | server/utils/auth.ts:44-47 | a lookup returns a row that matches, and returns nothing exactly when no row matches |
| Db.UserById | server/utils/auth.ts:44-47 | `findUnique` on the user id finds a stored user with that id, and nothing exactly when no user has it |
| Db.UserByEmail | server/api/auth/login.post.ts:17-26 | `findUnique` on the email finds a stored user with that email, and nothing exactly when no user has it |
| Db.RoleById | server/api/users/index.post.ts:36-40 | a role looked up by id is a stored role with that id; nothing exactly when none has it |
| Db.RoleByName | server/api/roles/index.post.ts:16-25 | a role looked up by name is a stored role with that name; nothing exactly when none has it |
| Db.PermissionById | server/utils/permissions.ts:11-29 | a permission looked up by id is a stored permission with that id; nothing exactly when none has it |
| Db.TenantById | server/utils/tenant.ts:77-81 | a tenant looked up by id is a stored tenant with that id; nothing exactly when none has it |
| Db.TenantBySlug | server/api/tenants/index.post.ts:16-25 | a tenant looked up by slug is a stored tenant with that slug; nothing exactly when none has it |
| Db.UserByOwnId | server/utils/auth.ts:44-47 | under the user primary key, looking a stored user up by its own id finds that very row |
| Db.AppendKeepsUnique | server/api/auth/register.post.ts:25-49 | appending a row whose key no stored row has keeps the key unique |
| Db.AddUserKeepsUsers | server/api/auth/register.post.ts:25-49 | adding a user and its role links keeps every user, role and permission lookup that succeeded before |
| Db.AddUserKeepsKeys | server/api/auth/register.post.ts:25-49 | a user with a fresh id, linked only to existing roles, keeps the user primary key and the foreign keys of the join and refresh-token tables |
| Db.Database.constructor | server/api/auth/login.post.ts:17-26 | the database starts holding exactly the given tables |
| Gate.Authenticate | server/utils/auth.ts:23-64 | the three refusals in order, each an iff: 401 "Access token is required" iff no non-empty bearer token; otherwise "Invalid or expired access token" iff the token does not verify under the access secret; otherwise success iff it names a stored active user, and "User not found or inactive" if not; on success the context user is that user's id, email and name with no super-admin flag and no tenant |
| Gate.SignedTokenAuthenticates | server/utils/auth.ts:23-64 | an access token signed for an active user authenticates that user until its `exp` second and is refused as invalid from then on |
| Gate.RequireAuth | server/utils/auth.ts:23-64 | answers the decision above; the context user is set on success and left as it was on a refusal |
| Gate.AuthorizeMeaning | server/utils/auth.ts:70-90 | 401 without a context user whatever the permission; otherwise the request passes iff one of the user's roles grants the permission, and is refused with 403 "Missing required permission" if not |
| Gate.RequirePermission | server/utils/auth.ts:70-90 | answers exactly that decision for the event's context user |
| Gate.Admit | server/utils/auth.ts:23-90 | an authentication refusal is passed on unchanged; after a success the permission check decides |
| Gate.AdmitMeaning | server/utils/auth.ts:23-90 | a request is admitted iff its bearer token authenticates a user whose roles grant the permission; a refusal is a 401 or a 403 |
| Gate.ValidateBody | server/utils/auth.ts:95-109 | succeeds iff the schema accepts the body, with the parsed value; otherwise 400 "Validation failed" |
| Gate.ValidateQuery | server/utils/auth.ts:114-128 | succeeds iff the schema accepts the query, with the parsed value; otherwise 400 "Invalid query parameters" |
| Login.LoginRefusals | server/api/auth/login.post.ts:14-53 | every refusal leaves tables and cookie alone; an unknown email and a wrong password give the same 401; an inactive account gives 401 "Account is deactivated" whatever the password; when signing throws, a correct password gets a 500 and nothing is stored |
| Login.LoginSuccess | server/api/auth/login.post.ts:44-81 | a success found an active user whose password verifies and a configuration both signings accept, answers the access token with id, email and name (no password), adds exactly one unrevoked refresh record for that user expiring after the refresh lifetime under the token set in the cookie, and that token verifies as the user's |
| Login.LoginKeepsOwners | server/api/auth/login.post.ts:61-68 | a login keeps every refresh record's owner existing |
| Login.HandleLogin | server/api/auth/login.post.ts:13-82 | the handler's answer, tables and cookie are those of the login step, checks in the source's order |
| Logout.LogoutEffect | server/api/auth/logout.post.ts:7-24 | logout always succeeds and deletes the cookie; with a cookie the record of that token, if stored, is revoked now and every other record kept; without one nothing changes; only the refresh-token table is written |
| Logout.LogoutTwice | server/api/auth/logout.post.ts:7-24 | logging out twice with the same cookie leaves the same tables as the second logout alone |
| Logout.LogoutThenRefreshIsReuse | server/api/auth/logout.post.ts:10-16 | a logged-out token is refused by a later refresh as revoked, which is reuse detection |
| Logout.HandleLogout | server/api/auth/logout.post.ts:7-24 | the handler's answer, tables and cookie are those of the logout step |
| RefreshStore.RevokeAllForUser | server/api/auth/refresh.post.ts:49-54 | every record of the user, revoked already or not, gets `revokedAt = now`; every other record and the set of tokens stay as they were |
| RefreshStore.RevokeToken | server/api/auth/logout.post.ts:10-16 | the record of the token, if stored, gets `revokedAt = now`; every other record and the set of tokens stay as they were |
| RefreshStore.Issue | server/api/auth/refresh.post.ts:92-100 | the insert fails iff the token is already stored (unique column); otherwise it adds exactly one unrevoked record for the user with that expiry and keeps every other record |
| RefreshStore.RevokeAllRevokesUser | server/api/auth/refresh.post.ts:49-54 | after mass revocation every record of the user is revoked, and any other record is revoked iff it was before |
| RefreshStore.RevokeTokenTwice | server/api/auth/logout.post.ts:10-16 | revoking one token twice is revoking it once at the later time, and leaves it revoked |
| RefreshStore.RevokeAllTwice | server/api/auth/refresh.post.ts:49-54 | mass revocation twice is mass revocation once at the later time |
| Refresh.RefreshRefusals | server/api/auth/refresh.post.ts:13-79 | no usable cookie gives 401 "Refresh token is required"; every refusal other than reuse (and the unique-column failure) is a 401 that changes neither tables nor cookie; "expired" is answered only when the record's expiry is strictly before now |
| Refresh.CheckStoredRefusals | server/api/auth/refresh.post.ts:48-79 | the checks on the stored record refuse with 401 and change nothing, except on reuse; expiry is strict |
| Refresh.RotateOutcome | server/api/auth/refresh.post.ts:81-100 | a rotation either succeeds or fails on the unique token column |
| Refresh.ReuseRevokesAll | server/api/auth/refresh.post.ts:48-61 | presenting a stored token that was already revoked, expired or not, answers 401 "Token has been revoked", revokes every record of its user (revoked ones too) at now, leaves other users' records, the set of tokens and the other tables alone, and writes no cookie |
| Refresh.RotationChecks | server/api/auth/refresh.post.ts:13-90 | a refresh that succeeds had a non-empty cookie verifying under the refresh secret, a stored unrevoked record not yet expired, an active owner and a configuration both signings accept, and rotated with both tokens signed from the record's user id and the owner's email |
| Refresh.RotateWrites | server/api/auth/refresh.post.ts:81-100 | a successful rotation revokes the presented record now and adds exactly one unrevoked record for the same user, expiring after the refresh lifetime, under a token that differs from every stored one |
| Refresh.RotateAnswers | server/api/auth/refresh.post.ts:102-108 | a successful rotation answers the new access token and sets the new refresh token in the cookie |
| Refresh.RotateKeepsOwners | server/api/auth/refresh.post.ts:81-100 | a rotation, successful or not, keeps every record's owner existing |
| Refresh.IssueKeepsOwners | server/api/auth/refresh.post.ts:92-100 | records written for existing owners over the same users keep every owner existing |
| Refresh.RotationSuccess | server/api/auth/refresh.post.ts:34-108 | a successful refresh passed the record checks, answers the access token signed from the record's user and the owner's email, revokes the presented record, adds exactly one fresh unrevoked record for the same user expiring after the refresh lifetime, sets that token in the cookie and keeps every owner existing |
| Refresh.OldTokenReused | server/api/auth/refresh.post.ts:48-85 | after a successful rotation, presenting the old token again lands in reuse detection |
| Refresh.ReSigningCollides | server/api/auth/refresh.post.ts:81-100 | when the re-signed token equals the presented one, the presented record is revoked, the insert violates the unique column and no cookie is written |
| Refresh.SameSecondRefreshFails | server/api/auth/refresh.post.ts:81-100 | with the record a login stores, a refresh in the login's own second fails on the unique column without a cookie, and presenting the same token again is refused as revoked (the user's tokens are all revoked) |
| Refresh.SameSecondCollision | server/api/auth/login.post.ts:55-71 | a login followed by a refresh in the same second, with the token the login set in the cookie, fails with the presented record revoked and no cookie written |
| Refresh.FreshRecordCollides | server/api/auth/refresh.post.ts:81-100 | a record signed for the payload in the current second is re-signed to the same token: the rotation revokes it and fails on the unique column, keeping every owner existing |
| Refresh.DefaultExpiryCovers | server/utils/jwt.ts:17-36 | a time in the same second as the login and before the token's `exp` is not after the stored expiry, whether or not the configured lifetime matches the `parseDuration` pattern |
| Refresh.SigningFailureRevokes | server/api/auth/refresh.post.ts:81-100 | when signing throws after every check passed, the request fails with 500, the presented record is already revoked, no cookie is written, and presenting the token again revokes every token of the user |
| Refresh.FreshIdRotationSucceeds | server/api/auth/refresh.post.ts:81-100 | signed with an id no stored token carries, a refresh that passes every check always rotates |
| Refresh.HandleRefresh | server/api/auth/refresh.post.ts:12-109 | the handler's answer, tables and cookie are those of the refresh step, checks in the source's order |
| Register.RegisterOutcomes | server/api/auth/register.post.ts:5-57 | a body the schema refuses gives 400 and a taken email 409, both changing nothing; the request succeeds iff neither, answering 201 with the new id, email, name and creation time and no password; exactly one user is appended with a hash that is not the plaintext and verifies for it, plus one assignment to the `user` role iff that role exists; no other table and no cookie is written |
| Register.RegisterKeepsKeys | server/api/auth/register.post.ts:25-49 | with a fresh id, registration keeps the user primary key and the foreign keys of the join and refresh-token tables |
| Register.RegisterKeepsEmailsUnique | server/api/auth/register.post.ts:9-19 | the 409 check keeps email addresses unique |
| Register.RegisteredCanLogIn | server/api/auth/register.post.ts:22-49 | credentials that registered log in: a later login with the same email and password fails only with a 500, and exactly when signing throws or the refresh token it signs is already stored (the unique token column) |
| Register.HandleRegister | server/api/auth/register.post.ts:5-57 | the handler's answer and tables are those of the register step |
| Permissions.Distinct | server/utils/permissions.ts:30-38 | the set in insertion order holds exactly the names added, each once |
| Permissions.GrantNamesMembers | server/utils/permissions.ts:33-35 | a name is among a role's granted names iff some role-permission row of that role points to a permission with that name |
| Permissions.HeldNamesMembers | server/utils/permissions.ts:32-36 | a name is among the user's held names iff some assignment of the user links a role that grants it |
| Permissions.UserPermissionsAreGrants | server/utils/permissions.ts:6-39 | the resolved permissions are exactly the names granted by some role the user holds, each listed once, and none for an unknown user |
| Permissions.GetUserPermissions | server/utils/permissions.ts:6-39 | the two nested loops build exactly the resolved list: every held name once, in order of first occurrence |
| Permissions.AddRoleGrants | server/utils/permissions.ts:33-35 | the inner loop extends the insertion-ordered set by the names the role grants |
| Permissions.DistinctGrantStep | server/utils/permissions.ts:33-35 | one more role-permission row adds its permission's name, unless the name is already there |
| Permissions.HasPermission | server/utils/permissions.ts:44-47 | true iff the user exists and one of the user's roles grants the permission |
| Permissions.HasAnyPermission | server/utils/permissions.ts:52-55 | true iff some required permission is resolved for the user; false for an empty list |
| Permissions.HasAllPermissions | server/utils/permissions.ts:60-63 | true iff every required permission is resolved for the user; true for an empty list |
| Permissions.AssignedRoleIdsExist | server/utils/permissions.ts:68-85 | under the join-table foreign key, every assigned role id names a stored role |
| Permissions.RoleNamesOfExisting | server/utils/permissions.ts:84 | for ids of stored roles, the role names are one per id, in order |
| Permissions.UserRolesOnePerAssignment | server/utils/permissions.ts:68-85 | under the foreign keys, `getUserRoles` gives one name per assignment, position by position the name of that assignment's role |
| Permissions.WithSuperAdmin | server/utils/permissions.ts:6-39 | only the super-admin flag of the user's rows changes; every other row and the length stay |
| Permissions.SuperAdminPlaysNoPart | server/utils/permissions.ts:6-39 | resolution ignores super-admin status: changing any user's flag changes no user's permissions |
| Permissions.SuperAdminKeepsIds | server/utils/permissions.ts:7-28 | changing the super-admin flag keeps which user ids exist |
| Permissions.HeldNamesFrame | server/utils/permissions.ts:32-36 | the held names depend only on the permission and role-permission tables, besides the assignments |
| Permissions.GrantNamesFrame | server/utils/permissions.ts:33-35 | a role's granted names depend only on the permission table, besides the rows |
| Tenancy.OrNull | server/utils/tenant.ts:46-49 | `x \|\| null`: present iff given and non-empty, and then unchanged |
| Tenancy.GetTenantContext | server/utils/tenant.ts:14-33 | no context without a context user; a super-admin's tenant is the non-empty `x-tenant-id` header, anyone else's is the attached tenant; the context records the user id and whether the flag is exactly `true` |
| Tenancy.TenantIdAgreesWithContext | server/utils/tenant.ts:40-50 | `getTenantId` is the context's tenant with an empty id read as none: the header for a super-admin, the user's own tenant otherwise |
| Tenancy.RequireTenantId | server/utils/tenant.ts:56-65 | fails with 400 "Tenant context required…" iff there is no non-empty tenant id; otherwise answers that id |
| Tenancy.IsSuperAdmin | server/utils/tenant.ts:70-72 | true iff a context user is attached whose flag is exactly `true` |
| Tenancy.ValidateTenantAccess | server/utils/tenant.ts:86-92 | true iff a stored tenant has the id and is active |
| Tenancy.GetAccessibleTenants | server/utils/tenant.ts:98-116 | nothing without a user; a super-admin gets every tenant; anyone else gets their own tenant if it exists, else nothing; only stored tenants are returned, always in name order |
| Tenancy.AfterRequireAuthNoTenantScope | server/utils/auth.ts:57-61 | after `requireAuth` as written nobody is a super-admin, nobody has a tenant id, `requireTenantId` always answers 400 and no tenant is accessible, whoever the user is |
| Tenancy.ScopedContextUser | server/utils/tenant.ts:14-33 | the context user carries the stored super-admin flag and tenant, the fields the tenant helpers read |
| Tenancy.AuthenticateScoped | server/utils/auth.ts:23-64 | refuses exactly when `requireAuth` does, with the same error |
| Tenancy.ScopedContextDecides | server/utils/tenant.ts:14-72 | with the scoped context user, a caller is a super-admin iff the stored flag says so, a super-admin picks the tenant through the header and a regular user acts in their own tenant |
| Tenancy.RequireAuthScoped | server/utils/auth.ts:23-64 | answers the scoped decision; the context user is set on success and left alone otherwise |
| Tenancy.AdmitSuperAdmin | server/api/tenants/index.post.ts:12-18 | the authentication error first, then 403 "SuperAdmin access required" for a non-super-admin, then the permission check |
| Tenancy.SuperAdminGateAdmitsNobody | server/api/tenants/index.get.ts:12-17 | behind `requireAuth` as written the super-admin gate refuses every request, and every authenticated caller gets the 403 |
| Tenancy.ScopedSuperAdminGate | server/api/tenants/index.get.ts:12-19 | behind the scoped `requireAuth` the gate admits exactly the authenticated stored super-admins whose roles grant the permission; refusals are 401 or 403 |
| TenantsCreate.ParseTenant | server/api/tenants/index.post.ts:5-9 | accepted iff the name has 1 to 100 characters and the slug 1 to 50 characters from `[a-z0-9-]`; name and slug pass unchanged and `isActive` defaults to true |
| TenantsCreate.DefaultTheme | server/api/tenants/index.post.ts:39-52 | the new tenant's settings row has key `theme`, belongs to the tenant and holds settings the theme schema accepts |
| TenantsCreate.CreateTenantRefusesEveryone | server/api/tenants/index.post.ts:12-18 | behind `requireAuth` as written every create request is refused without writing, an authenticated caller with the 403 |
| TenantsCreate.CreateTenantGates | server/api/tenants/index.post.ts:12-28 | refusals in the order authentication, super-admin 403, permission 403, validation 400, slug 409; each changes nothing |
| TenantsCreate.CreateTenantSuccess | server/api/tenants/index.post.ts:20-54 | a created tenant carries the name, the slug (valid and not yet used) and the flag (true unless given false); exactly one tenant row and one theme row with the default settings are added and nothing else changes |
| TenantsCreate.CreateTenantKeepsSlugsUnique | server/api/tenants/index.post.ts:22-36 | the 409 check keeps tenant slugs unique |
| TenantsCreate.HandleCreateTenant | server/api/tenants/index.post.ts:11-55 | the handler, with the scoped `requireAuth`, answers and writes what the create step gives |
| TenantsList.AtLeastOne | server/api/tenants/index.get.ts:6-7 | a missing number takes the default; a number is accepted iff it is at least 1, within the maximum and (with `.int()`) whole, and passes unchanged |
| TenantsList.ParseTenantQuery | server/api/tenants/index.get.ts:5-9 | an accepted query has page at least 1 and limit within 1..100, keeps the search, and defaults to page 1 and limit 20 |
| TenantsList.ParseTenantQueryInt | server/api/tenants/index.get.ts:5-9 | with `.int()` added, accepted numbers are also whole, and whatever it accepts the schema as written accepts the same way |
| TenantsList.UserCount | server/api/tenants/index.get.ts:39-43 | the user count is at most the number of users, and 0 iff no user belongs to the tenant |
| TenantsList.EngineInt | server/api/tenants/index.get.ts:33-38 | the query engine takes a number as `skip` or `take` iff it is a non-negative whole number, unchanged |
| TenantsList.EngineArgs | server/api/tenants/index.get.ts:22-38 | the database runs the query iff `(page - 1) * limit` and `limit` are both whole, and then receives exactly those values |
| TenantsList.ListTenantsRefusesEveryone | server/api/tenants/index.get.ts:12-17 | behind `requireAuth` as written nobody can list tenants, and every authenticated caller gets the super-admin 403 |
| TenantsList.ListTenantsGates | server/api/tenants/index.get.ts:12-21 | refusals in the order authentication, super-admin 403, permission 403, invalid query 400 |
| TenantsList.FractionalPageAsWritten | server/api/tenants/index.get.ts:5-22 | page 1.5 passes the schema; with limit 1 the fractional `skip` fails the request with a 500, with the default limit it is served from row 10 labelled page 1.5 |
| TenantsList.FractionalPageRefused | server/api/tenants/index.get.ts:5-9 | with `.int()` in the schema page 1.5 is a 400 |
| TenantsList.IntegralEngineArgs | server/api/tenants/index.get.ts:22-38 | with whole numbers the database receives `skip = (page - 1) * limit` and `take = limit` |
| TenantsList.IntegralQueryRuns | server/api/tenants/index.get.ts:22-46 | with whole numbers the query always runs and gives the page from that offset |
| TenantsList.IntegerQueryServes | server/api/tenants/index.get.ts:21-61 | with `.int()` an admitted request fails iff the query is refused (400), and otherwise gets its page: never a 500 |
| TenantsList.PageOfMeaning | server/api/tenants/index.get.ts:24-61 | a page holds at most `limit` stored tenants matching the search on name or slug ignoring case, taken from row `skip` of the newest-first order and so themselves newest first, each with its user count; `total` counts every matching tenant and `totalPages` is its ceiling over `limit` |
| Listing.Skip | server/api/users/index.get.ts:10 | page 1 skips nothing, and the skipped rows plus one page reach `page * limit` |
| Listing.Window | server/api/users/index.get.ts:21-26 | `skip`/`take` gives at most `take` rows, none past the end, the i-th being row `skip + i` of the ordered result |
| Listing.TotalPages | server/api/users/index.get.ts:60 | `Math.ceil(total / limit)`: the fewest pages of `limit` rows that hold `total` rows |
| Listing.RowOnItsPage | server/api/users/index.get.ts:10-26 | row `i` of the ordered result shows up on page `i / limit + 1` at position `i % limit`, and that page is within the page count |
| Listing.PastLastPageEmpty | server/api/users/index.get.ts:10-26 | every page past the page count is empty |
| Listing.Filter | server/api/users/index.get.ts:12-23 | the rows a `where` keeps are exactly the stored rows it matches, no more than there are |
| Listing.FilterCounts | server/api/users/index.get.ts:12-43 | a filter keeps each kept row as often as the table has it |
| Listing.OrderFreeCount | server/api/users/index.get.ts:43 | the number of rows a `where` selects does not depend on the order, so `count` agrees with the ordered `findMany` |
| Listing.LowerChar | server/api/users/index.get.ts:15-16 | ASCII case folding: upper-case letters become the letter 32 code points higher, every other character stays |
| Listing.Lower | server/api/users/index.get.ts:15-16 | lower-casing keeps the length and folds each character |
| Listing.Matching | server/api/users/index.get.ts:12-19 | an absent or empty search selects every row; otherwise exactly the rows that match it |
| Listing.MatchingOrderFree | server/api/users/index.get.ts:21-44 | the total reported equals the number of matching rows whatever the order, and every row selected is stored |
| Listing.FilterKeepsOrder | server/api/roles/index.get.ts:21-27 | the rows a `where` keeps stay in the order of the ordered table |
| Listing.PageKeepsOrder | server/api/roles/index.get.ts:21-27 | a searched page of a table in some order lists its rows in that order |
| Listing.ContainsExamples | server/api/roles/index.get.ts:12-19 | a text contains the empty search and itself; "Admin" contains "adm" but not "user", ignoring case |
| UsersList.RoleRefsNames | server/api/users/index.get.ts:47-51 | a listed user's flattened roles carry, in order, the names `getUserRoles` resolves, each naming a stored role |
| UsersList.ListUsersGates | server/api/users/index.get.ts:5-9 | an authentication or permission refusal is answered first; an admitted request fails iff its query is refused, with 400 |
| UsersList.ListUsersSuccess | server/api/users/index.get.ts:5-63 | a listing succeeds only for an admitted request with a valid query, and answers the page that query asks for |
| UsersList.PageOfMeaning | server/api/users/index.get.ts:10-63 | a page holds at most `limit` stored users matching the search on email or name ignoring case, taken from row `(page - 1) * limit` of the newest-first order and so themselves newest first, each shown without password and with its roles; `total` counts every matching user and `totalPages` is its ceiling over `limit` |
| UsersList.ItemRolesAreUserRoles | server/api/users/index.get.ts:47-51 | under the join-table foreign keys a listed user's roles are one per assignment, named as `getUserRoles` names them |
| RolesList.GrantedPermissionNames | server/api/roles/index.get.ts:44-52 | a listed role's permissions carry, in order, the names the permission resolver draws from that role |
| RolesList.UserCount | server/api/roles/index.get.ts:35-37 | the user count is at most the number of assignments, and 0 iff no assignment names the role |
| RolesList.ListRolesOutcomes | server/api/roles/index.get.ts:5-64 | an authentication or permission refusal is answered first; then a refused query gives 400 and an accepted one the page it asks for |
| RolesList.PageOfMeaning | server/api/roles/index.get.ts:10-64 | a page holds at most `limit` stored roles matching the search on name or description ignoring case, in name order from row `(page - 1) * limit`, each with its own id, name, description, grants and the number of its assignments; `total` counts every matching role |
| UsersCreate.CreateUserGates | server/api/users/index.post.ts:6-23 | authentication, then `users:create`, are decided before the body is read; an invalid body gives 400, an email already stored gives 409, and every refusal leaves the tables and the cookie untouched |
| UsersCreate.CreateUserSuccess | server/api/users/index.post.ts:25-64 | a created user is exactly one appended row, active, with the hashed (never the plain) password, plus one assignment per given role id in order (none when the list is absent or empty); the 201 response lists exactly those roles by id and name; no other table changes |
| UsersCreate.InsertUserWrites | server/api/users/index.post.ts:29-39 | a successful insert only ever assigns roles that exist, without repeats, and appends the user and its assignment rows |
| UsersCreate.InsertUserKeepsKeys | server/api/users/index.post.ts:29-39 | with a fresh id the insert keeps user ids unique, every join row's ends in place and every token's owner stored |
| UsersCreate.InsertUserKeepsEmailsUnique | server/api/users/index.post.ts:12-23 | the 409 check keeps email addresses unique across every outcome |
| UsersCreate.AssignmentsToRoles | server/api/users/index.post.ts:34-38 | every assignment row created links the new user to a role that exists |
| UsersCreate.HandleCreateUser | server/api/users/index.post.ts:6-65 | the handler's answer and the new tables are those of the create-user step on the old tables, and the event's user is the one authentication attached |
| RolesCreate.CreateRoleGates | server/api/roles/index.post.ts:5-22 | admission is decided before any write; a name already used by any role gives 409; every refusal leaves the tables and the cookie untouched |
| RolesCreate.CreateRoleSuccess | server/api/roles/index.post.ts:24-57 | a created role has the given name and description and one grant per given permission id in order (none when the list is absent or empty); the 201 response lists exactly those permissions by id and name; no other table changes |
| RolesCreate.CreatedRoleGrantsListed | server/api/roles/index.post.ts:25-55 | under the foreign keys, the created role grants exactly the permission names the response lists, in the same order, so a holder of the role resolves those permissions |
| RolesCreate.InsertRoleKeepsKeys | server/api/roles/index.post.ts:11-34 | with a fresh id, creating a role keeps role names unique and every join row's ends in place |
| RolesCreate.HandleCreateRole | server/api/roles/index.post.ts:5-58 | the handler's answer and the new tables are those of the create-role step on the old tables, and the event's user is the one authentication attached |
| Schemas.StrongPasswordExamples | server/utils/schemas.ts:6-12 | the password rule needs a lowercase letter, an uppercase letter and a digit and eight characters, and a digit after a line break does not satisfy its lookahead |
| Schemas.SchemaRelations | server/utils/schemas.ts:4-53 | a body `registerSchema` accepts passes `loginSchema` with the same credentials; a weak password passes login only; an empty register name is refused where the create-user name is not; both update schemas accept the empty body; an empty role name is refused |
| Schemas.PositiveInt | server/utils/schemas.ts:57-58 | an absent parameter takes its default, a non-number is refused, and a number is accepted iff it is a positive integer within the maximum, keeping its value |
| Schemas.ParsePagination | server/utils/schemas.ts:56-60 | a query is accepted iff both page and limit are; an accepted page is at least 1 and limit within 1..100, with the search passed through; an empty query means page 1 of 10 |
| Schemas.PaginationBounds | server/utils/schemas.ts:57-58 | a fractional page, a zero page, a limit of 101 and a non-numeric page are refused; a limit of 100 is accepted |
| ThemeSchema.DefaultThemeSettings | server/utils/theme.ts:16-23 | the default settings pass the theme schema, with the sidebar expanded and dark mode off |
| ThemeSchema.HexColorExamples | server/utils/theme.ts:5 | a colour is `#` and exactly six hexadecimal digits of either case: a missing `#`, five or seven digits and a non-hex digit are refused |
| JsBuiltins.RemoveFirstHash | stores/theme.ts:42 | `replace('#', '')` removes only the first `#`, one character shorter when there is one, the string itself when there is none, and adds no character |
| JsBuiltins.TrimStart | stores/theme.ts:42 | `parseInt` skips exactly the leading white space and line terminators: what remains is a suffix that does not start with one |
| JsBuiltins.HexPrefixLength | stores/theme.ts:42 | `parseInt` reads the longest prefix of hex digits: all of it digits, and the next character, if any, not one |
| JsBuiltins.HexPrefixOfDigits | stores/theme.ts:42 | a run of hex digits followed by a non-digit is read to its end |
| JsBuiltins.ParseIntHexOfDigits | stores/theme.ts:42 | a non-empty run of hex digits, upper or lower case, followed by anything that is neither a digit nor the `x` of `0x`, parses in base 16 to the run's value |
| JsBuiltins.UnsignedOfDigits | stores/theme.ts:42 | without a sign in front, such a run is read as it stands |
| JsBuiltins.SkipSpace | stores/theme.ts:42 | leading white space and line terminators are skipped: the rest is read as a signed number |
| JsBuiltins.NegativeDigits | stores/theme.ts:42 | a `-` followed by hex digits alone is read as the negated value of the digits |
| JsBuiltins.ParseIntHexNaN | stores/theme.ts:42 | a string without a hex digit parses to NaN |
| JsBuiltins.BitLengthBelow | stores/theme.ts:42 | a number below 2^e has at most `e` binary digits |
| JsBuiltins.RoundMagnitude | stores/theme.ts:42 | rounding to a multiple of 2^shift moves the value by at most half of 2^shift |
| JsBuiltins.RoundToDouble | stores/theme.ts:42 | `parseInt`'s result as a double: exact up to `Number.MAX_SAFE_INTEGER` in magnitude, sign kept |
| JsBuiltins.ToInt32 | stores/theme.ts:44-46 | the shift and mask operators see a signed 32-bit value congruent to the number modulo 2^32, and 0 for NaN or an infinity |
| JsBuiltins.ParsedInt32OfDigits | stores/theme.ts:42-46 | up to seven hex digits are read by the shift and mask operators as their value |
| JsBuiltins.SmallInt32 | stores/theme.ts:44-46 | a non-negative number below 2^31 is its own 32-bit value |
| JsBuiltins.ParsedInt32NaN | stores/theme.ts:42-46 | a string without a hex digit is read by the shift and mask operators as 0 |
| ThemeStore.Clamp | stores/theme.ts:44-46 | a channel is kept within 0..255: unchanged inside, 0 below, 255 above |
| ThemeStore.Channels | stores/theme.ts:42-46 | the red, green and blue channels read from a valid colour are each at most 255 |
| Text.HexDigitsBound | stores/theme.ts:42 | hexadecimal digits stand for a number below 16 to the power of their count |
| ThemeStore.PackChannels | stores/theme.ts:47 | packing three channels into `R * 0x10000 + G * 0x100 + B` stays below `0x1000000` and gives each channel back |
| ThemeStore.AdjustColor | stores/theme.ts:41-48 | for every input string, valid colour or not, the shaded colour is `#` and six lower-case hex digits, so it passes the colour schema |
| ThemeStore.Shade | stores/theme.ts:44-47 | whatever 32-bit number the parse gives, the result is a valid colour whose channels are `num >> 16`, `(num >> 8) & 0xff` and `num & 0xff`, each shifted and kept within 0..255 |
| ThemeStore.BlackChannels | stores/theme.ts:47 | a lower-case colour whose three channels are zero is `#000000` |
| ThemeStore.ColorNumberOfHexColor | stores/theme.ts:42 | a `#rrggbb` colour, `#` removed and parsed in base 16, is the number its six digits stand for |
| ThemeStore.AdjustColorWithoutDigits | stores/theme.ts:42-47 | a string without a hex digit parses to NaN, which the shifts read as 0: every channel is the clamped shift, and a darkening gives `#000000` |
| ThemeStore.PackedHex | stores/theme.ts:47 | the `0x1000000 + v` hex string with its leading digit dropped is a valid colour whose digits stand for `v` |
| ThemeStore.AdjustColorChannels | stores/theme.ts:41-48 | each channel of the shaded colour is the input's channel plus the shift, kept within 0..255 |
| ThemeStore.ChannelsOfValue | stores/theme.ts:42-46 | the channels are the number's bytes, high to low |
| ThemeStore.AdjustColorZero | stores/theme.ts:41-48 | a zero shift keeps the channels of a valid colour |
| ThemeStore.AdjustColorExtremes | stores/theme.ts:41-48 | a shift of -255 or less gives black and of 255 or more gives white |
| ThemeStore.Merge | stores/theme.ts:102 | `{ ...settings, ...patch }`: each field the patch gives overrides, every other field is kept |
| ThemeStore.Css | stores/theme.ts:84-93 | for any settings, valid colours or not: the primary and secondary variables are the settings' colours; the hover and pressed variables are the stored shades when non-empty, otherwise the primary darkened by 25 and 51 |
| ThemeStore.WithPrimaryAgreesWithCss | stores/theme.ts:193-198 | after setting any primary colour string the stored shades are those the CSS getter would derive anyway, and the other settings are kept |
| ThemeStore.ToggleTwice | stores/theme.ts:210-213 | toggling dark mode twice restores the settings |
| ThemeStore.ApplyTemplateOverrides | stores/theme.ts:183-186 | applying a template takes its colours and flags, keeps a shade only where the template has none, and applying it again changes nothing |
| ThemeStore.Store.constructor | stores/theme.ts:75-80 | a new store holds the default settings, no templates, and is neither loading nor hydrated |
| ThemeStore.Store.HydrateFromStorage | stores/theme.ts:98-105 | hydration merges the stored patch into the settings once; later calls change nothing; the store is hydrated afterwards |
| ThemeStore.Store.ApplyTemplate | stores/theme.ts:183-186 | the settings become the template's settings merged over the old ones |
| ThemeStore.Store.SetPrimaryColor | stores/theme.ts:193-198 | any string is accepted: the primary colour is set with its hover and pressed shades derived from it |
| ThemeStore.Store.SetDarkMode | stores/theme.ts:188-191 | only the dark-mode flag changes, to the given value |
| ThemeStore.Store.SetSecondaryColor | stores/theme.ts:200-203 | only the secondary colour changes |
| ThemeStore.Store.SetSidebarCollapsed | stores/theme.ts:205-208 | only the sidebar flag changes |
| ThemeStore.Store.ToggleDarkMode | stores/theme.ts:210-213 | only the dark-mode flag changes, to its negation |
| ThemeStore.Store.SaveTemplate | stores/theme.ts:153-168 | a template the server returns is appended and returned; on failure the list is kept and nothing is returned |
| ThemeStore.Store.DeleteTemplate | stores/theme.ts:170-181 | on success exactly the templates with that id are removed, the rest in order; on failure the list is kept |
| ThemeStore.DeleteTemplateRemovesId | stores/theme.ts:176 | a template survives deletion iff it was listed and has another id; deleting an absent id keeps the list |
| AuthStore.PermissionGetters | stores/auth.ts:42-47 | a super-admin has every permission, any and all of every list; otherwise `hasPermission` is membership in the held permissions; the empty list has none of `hasAny` (without the bypass) and all of `hasAll`; the three agree on a single permission, and all of a non-empty list implies any |
| AuthStore.Cleared | stores/auth.ts:177-182 | after clearing, the session is neither authenticated, super-admin nor admin, and the loading and initialised flags are kept |
| AuthStore.InitializeOnce | stores/auth.ts:124-139 | `initialize` leaves the store initialised and a second call changes nothing; a failed refresh on first start leaves a cleared session; a successful refresh changes only the access token, a failed one leaves the session unauthenticated |
| AuthStore.FetchUserInfoMeaning | stores/auth.ts:141-163 | without a token `fetchUserInfo` changes nothing; with one, a successful answer makes the session authenticated with the answered roles and permissions, super-admin iff the answered user is |
| AuthStore.Store.constructor | stores/auth.ts:28-35 | a new store has no user, no token, no roles or permissions, and is neither loading nor initialised |
| AuthStore.Store.ClearAuth | stores/auth.ts:177-182 | the state becomes the cleared state |
| AuthStore.Store.Logout | stores/auth.ts:113-122 | whether or not the request succeeded, the session is cleared and the client sent to `/login` |
| AuthStore.Store.RefreshToken | stores/auth.ts:124-139 | the call succeeds iff the server answered a token; the state becomes the refreshed one |
| AuthStore.Store.FetchUserInfo | stores/auth.ts:141-163 | the call succeeds iff there is a non-empty token and the server answered; the state becomes the fetched one |
| AuthStore.Store.Initialize | stores/auth.ts:165-175 | the state becomes the initialised one: a refresh, then on success a fetch, once |
| RouteGuard.Decide | middleware/auth.ts:3-25 | on the server every navigation proceeds; an authenticated client is stopped only on exactly `/login` or `/register`, an unauthenticated one exactly on non-public paths; a redirect goes to `/` or `/login` |
| RouteGuard.PublicExamples | middleware/auth.ts:10-11 | the public test is a prefix test: `/docsX`, `/login/reset` and `/register` are public, `/`, `/users` and `/doc` are not |
| RouteGuard.RedirectsSettle | middleware/auth.ts:13-24 | a redirect's target lets the same client through, so the guard never redirects in a loop |
| Seed.CatalogueNamesDistinct | prisma/seed.ts:7-30 | the catalogue has 15 entries, the super-admin set takes all 15 names, and no name repeats |
| Seed.PermissionSetsNested | prisma/seed.ts:30-44 | the tenant-user set lies within the tenant-admin set, which lies within the catalogue and holds no `tenants:` permission, while the catalogue has all four tenant permissions |
| Seed.FindOrCreateFinds | prisma/seed.ts:47-70 | a find-or-create afterwards finds the row it returned, and adds that one row exactly when no row matched |
| Seed.FindOrCreateOnce | prisma/seed.ts:47-70 | a second find-or-create with the same key creates nothing and returns the same row |
| Seed.FindOrCreateKeepsOther | prisma/seed.ts:47-70 | a find-or-create leaves what a lookup by an unrelated key finds |
| Seed.UpsertFinds | prisma/seed.ts:79-83 | an upsert afterwards finds the row it returned and adds a row exactly when none matched |
| Seed.UpsertKeepsOther | prisma/seed.ts:79-83 | an upsert leaves what a lookup by a disjoint key finds |
| Seed.UpsertOnce | prisma/seed.ts:79-83 | repeating an upsert whose update is idempotent changes nothing and returns the same row |
| Seed.LinkMeaning | prisma/seed.ts:205-217 | after a join-row upsert the row is present, nothing else is added, a present row changes nothing, and no row comes to occur twice |
| Seed.UpsertPermissionStores | prisma/seed.ts:79-83 | a permission upsert returns a stored row with the entry's name and keeps every stored id and name |
| Seed.UpsertPermissionsNames | prisma/seed.ts:77-85 | the catalogue's upserts return one row per entry, in order, each named as its entry |
| Seed.UpsertPermissionsStore | prisma/seed.ts:77-85 | every row the catalogue's upserts return is stored afterwards, and so is everything stored before |
| Seed.HoldingMeaning | prisma/seed.ts:109-111 | the permission filter keeps exactly the returned rows whose names are in the role's set |
| Seed.GrantAllMeaning | prisma/seed.ts:112-128 | after the grants every earlier row and every grant of the role is present, nothing else is added, and no row comes to occur twice |
| Seed.GlobalRoleOnce | prisma/seed.ts:47-57 | `findOrCreateGlobalRole` fails exactly when no global role of no tenant has the name but another role holds it, since role names are unique; otherwise it returns a global role of no tenant with the name, creates at most one row, and a second call creates nothing and returns the same role |
| Seed.GlobalRoleKeepsNamesDistinct | prisma/seed.ts:47-57 | a `findOrCreateGlobalRole` that succeeds keeps role names unique |
| Seed.GlobalRoleKeepsOtherNames | prisma/seed.ts:47-57 | a `findOrCreateGlobalRole` leaves what another name's lookup finds, and whether that name's create would be refused |
| Seed.SeedRolesCompletes | prisma/seed.ts:101-187 | the roles stage creates all three roles exactly when none of their names is held by another role beforehand, and keeps role names unique |
| Seed.SeedCompletes | prisma/seed.ts:72-320 | `main` completes exactly when none of the three role names is held by another role; when a create is refused, the accounts, links, settings and templates are not written; role names stay unique either way |
| Seed.GlobalTemplateOnce | prisma/seed.ts:60-70 | `findOrCreateGlobalThemeTemplate` returns a global template of no tenant with the name, creates at most one row, and a second call creates nothing and returns the same template |
| Seed.ThemeSettingOnce | prisma/seed.ts:282-297 | the theme setting's upsert leaves a setting found by tenant and key, keeps the rows before it, and changes nothing the second time |
| Seed.SeedAccounts | prisma/seed.ts:189-278 | after a seed that completes, the super-admin account has the flag and no tenant, the admin and user accounts lack it and belong to the tenant the slug `default` finds, and each is linked to the global role of its name |
| Seed.SeedGrants | prisma/seed.ts:101-187 | when the seed completes, super_admin is granted every catalogue permission and tenant_admin and tenant_user every permission of their sets, each through a stored permission row of that name |
| Seed.SeedStoresCatalogue | prisma/seed.ts:75-85 | the upserts return one stored row per catalogue entry, named as the entry |
| Seed.SeedKeepsJoinRowsDistinct | prisma/seed.ts:112-128 | from join tables without repeats the seed leaves join tables without repeats, since every join write is an upsert on its composite key |
| Seed.SeedThemeRows | prisma/seed.ts:280-311 | after a seed that completes, the default tenant has its theme setting and the global "Default Blue" template exists; ones already there are kept |
| Seed.SeededThemeIsDefault | prisma/seed.ts:287-294 | the seeded theme is the server's default theme, which the theme schema accepts |
| Seed.FindOrCreateGlobalRole | prisma/seed.ts:47-57 | a refused create returns nothing and changes nothing; otherwise the returned role and the roles table are the find-or-create's on the old table, and nothing else changes |
| Seed.FindOrCreateGlobalThemeTemplate | prisma/seed.ts:60-70 | the returned template and the templates table are the find-or-create's on the old table; nothing else changes |
| Seed.UpsertDefaultTenant | prisma/seed.ts:90-98 | the returned tenant and the tenants table are the slug upsert's; nothing else changes |
| Seed.UpsertThemeSetting | prisma/seed.ts:282-297 | the returned setting and the settings table are the keyed upsert's; nothing else changes |
| Seed.UpsertCatalogue | prisma/seed.ts:77-85 | the returned rows and the permissions table are those of the catalogue's upserts in order; nothing else changes |
| Seed.GrantPermissions | prisma/seed.ts:112-128 | the role-permission table becomes the one the grants produce; nothing else changes |
| Seed.SeedRolesStep | prisma/seed.ts:101-187 | the roles and grants tables become those of the roles stage, stopping at a refused create; nothing else changes |
| Seed.UpsertAccount | prisma/seed.ts:192-203 | the returned account and the users table are the email upsert's; nothing else changes |
| Seed.LinkUserRole | prisma/seed.ts:205-217 | the user-roles table becomes the join-row upsert's; nothing else changes |
| Seed.SeedUsersStep | prisma/seed.ts:189-278 | the users and user-roles tables become those of the accounts stage; nothing else changes |
| Seed.RunSeed | prisma/seed.ts:72-320 | the tables after `main` are those of the seed run on the tables before, including a run that stops at a refused role create |
| Seed.SeedRunAborted | prisma/seed.ts:72-320 | after a refused role create the tables hold the catalogue, the tenant and the roles stage's writes so far, and nothing else changed |

## Left out

- Cryptography: HMAC signatures and bcrypt are not modelled.
  - A token carries its key symbolically (`TokenCodec`).
  - A hash is the password under a fixed tag, so it verifies for exactly that password.
  - Forgery, key strength and the bcrypt cost factor are outside the model.
- Prisma and H3 are replaced:
  - The database is in memory.
  - Request headers, the cookie and the body are given as values.
  - `readBody`, `getHeader`, `getCookie`, `setCookie` and `deleteCookie` are the event's fields.
- The signing library's reading of a lifetime string off the pattern `^(\d+)(s|m|h|d)$` ("1w", "2 days", "1.5h", "100") is the configuration's `otherExpiresIn`, taken as given, with `None` where `jwt.sign` throws.
  - A negative reading ("-1h") is not modelled.
  - Numerals too large for a double are read exactly.
  - Off the pattern, the token's `exp` follows the library while the stored expiry and the cookie follow the 15-minute fallback. The model keeps both, as the source computes them.
- An empty signing secret, which the signing library refuses, is not modelled as a failure.
- The clock, generated ids and the token id are parameters (`now` in milliseconds, `newId`).
  - Database defaults (`createdAt`, `isActive`) are written out where rows are created.
- Generated ids are taken as distinct from every stored id, so a create is never refused on its primary key.
- `updatedAt` columns, and the roles' `createdAt`, are not modelled: no row carries them, so the users list and the roles list and create responses omit those fields. No contract depends on them.
- UsersCreate.CreateUserSuccess: the 201 response lists the roles in the order of `roleIds`. Prisma does not promise an order for an `include`d relation, so the source may list them in another order.
- RolesCreate.CreateRoleSuccess: likewise, the response lists the permissions in the order of `permissionIds`, an order Prisma's `include` does not promise.
- Zod's email and UUID checks are opaque predicates (`Schemas.Formats`).
  - `z.coerce.number()` is taken as its outcome: absent, not a number, or a number.
- Concurrency:
  - The refresh handler's revoke and insert are two separate writes. They are modelled one after the other, with no interleaving requests.
  - The seed's `Promise.all` batches run in list order.
- `JsBuiltins` reads strings as sequences of characters, so a character outside the Basic Multilingual Plane is one character and not two UTF-16 code units.
- `Math.round(2.55 * percent)` in `stores/theme.ts` is floating point. `ThemeStore.AdjustColor` takes the rounded shift as an integer, and the two shifts the store uses are the constants -25 and -51.
- The order of `findMany` results (`orderBy`) is an input: a sequence the listing lemmas require to hold exactly the stored rows, in the order asked for. `count` is proved not to depend on it.
  - `orderBy: { createdAt: 'desc' }` is taken as non-increasing `createdAt`.
  - `orderBy: { name: 'asc' }` is taken as character-code order of the names (`Text.LexLe`). The database's collation, which may order case and non-ASCII letters differently, is not modelled.
  - Rows that tie on the ordering key may come in any order.
- Case-insensitive search folds ASCII letters only. Strings are sequences of characters, not UTF-16 code units.
- Browser I/O:
  - The theme store's `localStorage` load and save are not modelled. Hydration takes the stored patch as a parameter.
  - `fetchSettings`, `fetchTemplates` and `updateSettings` (with its `loading` flag) are not modelled.
- The auth store:
  - The `login` action is not modelled. It posts the credentials, stores the answered access token and user, then awaits `fetchUserInfo`, and it sets `isLoading` for the duration; a failure becomes an error message.
  - The `register` action only posts to the register route modelled above and toggles `isLoading`; it is not modelled.
  - The one-line setters `setAccessToken`, `setUser`, `setPermissions` and `setRoles` are not modelled.
  - The getters `currentTenant`, `currentTenantId` and `hasRole` are not modelled.
  - Server answers enter as parameters (`None` for a failed request); error messages are not modelled.
- The seed's console output, `process.exit` and `$disconnect` are not modelled. Its bcrypt call is the same stand-in hash as above.
- The tenant list query as the database engine sees it:
  - A whole number is accepted as `skip` or `take`.
  - Any other value fails the request with 500 (`TenantsList.EngineInt`).
  - Prisma's own message is not modelled.

## Findings

| source | as written | input that shows it | evidently intended | confidence | as-written member | corrected member |
|---|---|---|---|---|---|---|
| server/api/auth/refresh.post.ts:88-100 | the new refresh token is signed without a token id, so within one second it is the same string as the presented one; the old record is revoked, then the insert hits the unique `token` column | log in, then call refresh within the same second with the cookie the login set: the refresh fails with no new cookie, and the next refresh with that cookie is treated as reuse and revokes every token of the user | a rotation always issues a token distinct from every stored one, e.g. by signing with a fresh `jti` | not executed | Refresh.SameSecondRefreshFails | Refresh.FreshIdRotationSucceeds |
| server/utils/auth.ts:57-61 | `requireAuth` attaches only `id`, `email` and `name`, so `isSuperAdmin` and `getTenantId` read fields that are never set | any authenticated request to `GET /api/tenants` or `POST /api/tenants`, even by the seeded super-admin, gets 403 "SuperAdmin access required"; `requireTenantId` answers 400 to everyone | the context user carries the stored `isSuperAdmin` flag and `tenantId` | not executed | Tenancy.SuperAdminGateAdmitsNobody | Tenancy.ScopedSuperAdminGate |
| server/api/tenants/index.get.ts:5-9 | the tenant list query coerces `page` and `limit` to numbers without `.int()` | `?page=1.5&limit=1` passes validation and fails in the database with 500; `?page=1.5` is served from row 10 | a fractional page or limit is refused with 400, as `paginationSchema` does | not executed | TenantsList.FractionalPageAsWritten | TenantsList.IntegerQueryServes |
