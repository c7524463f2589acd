/**
 * The client's authentication store (stores/auth.ts): the getters the pages
 * use to show or hide actions, and the actions that clear, refresh and
 * initialise the session. Server responses are parameters: `None` stands
 * for a request that failed.
 */
module AuthStore {
  import opened Wrappers

  datatype TenantRef = TenantRef(id: string, name: string, slug: string)

  /** The user as `/api/auth/me` and `/api/auth/login` describe it. */
  datatype StoreUser = StoreUser(
    id: string, email: string, name: Option<string>, isSuperAdmin: bool,
    tenantId: Option<string>, tenant: Option<TenantRef>)

  /** What `/api/auth/me` answers. */
  datatype MeResponse = MeResponse(user: StoreUser, roles: seq<string>, permissions: seq<string>)

  datatype AuthState = AuthState(
    user: Option<StoreUser>, accessToken: Option<string>, permissions: seq<string>,
    roles: seq<string>, isLoading: bool, isInitialized: bool)

  const TenantAdminRole: string := "tenant_admin"

  /** A token is held when it is present and non-empty (JavaScript truthiness). */
  predicate HasToken(s: AuthState) { s.accessToken.Some? && s.accessToken.value != "" }

  /** `isAuthenticated`. */
  predicate IsAuthenticated(s: AuthState) { HasToken(s) && s.user.Some? }

  /** `isSuperAdmin`. */
  predicate IsSuperAdmin(s: AuthState) { s.user.Some? && s.user.value.isSuperAdmin }

  /** `hasPermission(p)`: a super-admin holds everything. */
  predicate HasPermission(s: AuthState, p: string) { IsSuperAdmin(s) || p in s.permissions }

  /** `hasAnyPermission(ps)`. */
  predicate HasAnyPermission(s: AuthState, ps: seq<string>)
  {
    IsSuperAdmin(s) || exists i :: 0 <= i < |ps| && ps[i] in s.permissions
  }

  /** `hasAllPermissions(ps)`. */
  predicate HasAllPermissions(s: AuthState, ps: seq<string>)
  {
    IsSuperAdmin(s) || forall i :: 0 <= i < |ps| ==> ps[i] in s.permissions
  }

  /** `isAdmin`: a super-admin, or a holder of the tenant-admin role. */
  predicate IsAdmin(s: AuthState) { IsSuperAdmin(s) || TenantAdminRole in s.roles }

  /**
   * A super-admin passes every permission check; anyone else passes exactly
   * the checks their permission list meets: no requirement is met by nobody
   * and every empty one is met.
   */
  lemma PermissionGetters(s: AuthState, p: string, ps: seq<string>)
    ensures IsSuperAdmin(s) ==> HasPermission(s, p) && HasAnyPermission(s, ps) && HasAllPermissions(s, ps)
    ensures !IsSuperAdmin(s) ==> (HasPermission(s, p) <==> p in s.permissions)
    ensures !IsSuperAdmin(s) ==> !HasAnyPermission(s, [])
    ensures HasAllPermissions(s, [])
    ensures HasPermission(s, p) == HasAnyPermission(s, [p]) == HasAllPermissions(s, [p])
    ensures HasAllPermissions(s, ps) && ps != [] ==> HasAnyPermission(s, ps)
  {
    if HasAllPermissions(s, ps) && ps != [] && !IsSuperAdmin(s) {
      assert ps[0] in s.permissions;
    }
    assert [p][0] == p;
  }

  /** The session after `clearAuth()`. */
  function Cleared(s: AuthState): (r: AuthState)
    ensures !IsAuthenticated(r) && !IsSuperAdmin(r) && !IsAdmin(r)
    ensures r.isLoading == s.isLoading && r.isInitialized == s.isInitialized
  {
    s.(user := None, accessToken := None, permissions := [], roles := [])
  }

  /** The session after `refreshToken()` got `token`, or failed. */
  function AfterRefresh(s: AuthState, token: Option<string>): AuthState
  {
    if token.Some? then s.(accessToken := token) else Cleared(s)
  }

  /** The session after `fetchUserInfo()`; without a token nothing is requested. */
  function AfterFetch(s: AuthState, me: Option<MeResponse>): AuthState
  {
    if !HasToken(s) || me.None? then s
    else s.(user := Some(me.value.user), roles := me.value.roles, permissions := me.value.permissions)
  }

  /** The session after `initialize()`. */
  function AfterInitialize(s: AuthState, token: Option<string>, me: Option<MeResponse>): AuthState
  {
    if s.isInitialized then s
    else
      var refreshed := AfterRefresh(s, token);
      (if token.Some? then AfterFetch(refreshed, me) else refreshed).(isInitialized := true)
  }

  /**
   * `initialize()` runs once: afterwards the store is initialised and a
   * second call changes nothing. A failed refresh leaves a cleared session;
   * a refresh alone changes only the token.
   */
  lemma InitializeOnce(s: AuthState, token: Option<string>, me: Option<MeResponse>,
                       token2: Option<string>, me2: Option<MeResponse>)
    ensures AfterInitialize(s, token, me).isInitialized
    ensures var s' := AfterInitialize(s, token, me);
            AfterInitialize(s', token2, me2) == s'
    ensures !s.isInitialized && token.None? ==>
              AfterInitialize(s, token, me) == Cleared(s).(isInitialized := true)
    ensures AfterRefresh(s, token).isLoading == s.isLoading
    ensures token.Some? ==> AfterRefresh(s, token) == s.(accessToken := token)
    ensures token.None? ==> !IsAuthenticated(AfterRefresh(s, token))
  {
  }

  /**
   * With a non-empty token, a successful `/me` makes the session
   * authenticated with the answered roles and permissions; without a token
   * `fetchUserInfo` changes nothing.
   */
  lemma FetchUserInfoMeaning(s: AuthState, me: Option<MeResponse>)
    ensures !HasToken(s) ==> AfterFetch(s, me) == s
    ensures HasToken(s) && me.Some? ==>
              IsAuthenticated(AfterFetch(s, me)) && AfterFetch(s, me).permissions == me.value.permissions
              && AfterFetch(s, me).roles == me.value.roles
              && (IsSuperAdmin(AfterFetch(s, me)) <==> me.value.user.isSuperAdmin)
  {
  }

  /** The store (`useAuthStore`). */
  class Store {
    var user: Option<StoreUser>
    var accessToken: Option<string>
    var permissions: seq<string>
    var roles: seq<string>
    var isLoading: bool
    var isInitialized: bool

    function State(): AuthState
      reads this
    {
      AuthState(user, accessToken, permissions, roles, isLoading, isInitialized)
    }

    constructor ()
      ensures State() == AuthState(None, None, [], [], false, false)
    {
      user, accessToken, permissions, roles := None, None, [], [];
      isLoading, isInitialized := false, false;
    }

    /** `clearAuth()`: the session fields reset, the two flags kept. */
    method ClearAuth()
      modifies this`user, this`accessToken, this`permissions, this`roles
      ensures State() == Cleared(old(State()))
    {
      user := None;
      accessToken := None;
      permissions := [];
      roles := [];
    }

    /**
     * `logout()`: the session is cleared and the client sent to the login
     * page whether or not the server request succeeded.
     */
    method Logout(requestSucceeded: bool) returns (navigateTo: string)
      modifies this`user, this`accessToken, this`permissions, this`roles
      ensures State() == Cleared(old(State()))
      ensures navigateTo == "/login"
    {
      ClearAuth();
      navigateTo := "/login";
    }

    /** `refreshToken()` with `token` the new access token, `None` when the request failed. */
    method RefreshToken(token: Option<string>) returns (ok: bool)
      modifies this`user, this`accessToken, this`permissions, this`roles
      ensures ok <==> token.Some?
      ensures State() == AfterRefresh(old(State()), token)
    {
      if token.Some? {
        accessToken := token;
        return true;
      }
      ClearAuth();
      return false;
    }

    /** `fetchUserInfo()` with `me` the `/me` answer, `None` when the request failed. */
    method FetchUserInfo(me: Option<MeResponse>) returns (ok: bool)
      modifies this`user, this`roles, this`permissions
      ensures ok <==> HasToken(old(State())) && me.Some?
      ensures State() == AfterFetch(old(State()), me)
    {
      if accessToken.None? || accessToken.value == "" {
        return false;
      }
      if me.None? {
        return false;
      }
      user := Some(me.value.user);
      roles := me.value.roles;
      permissions := me.value.permissions;
      return true;
    }

    /** `initialize()`: refresh, then load the user when the refresh worked; only once. */
    method Initialize(token: Option<string>, me: Option<MeResponse>)
      modifies this
      ensures State() == AfterInitialize(old(State()), token, me)
    {
      if isInitialized {
        return;
      }
      var refreshed := RefreshToken(token);
      if refreshed {
        var _ := FetchUserInfo(me);
      }
      isInitialized := true;
    }
  }
}
