/** The client route middleware (middleware/auth.ts). */
module RouteGuard {
  import opened Text

  /** What the middleware tells the router. */
  datatype Navigation = Proceed | Redirect(to: string)

  const PublicRoutes: seq<string> := ["/login", "/register", "/docs"]

  /** A path is public when it starts with one of the public routes: a prefix test. */
  predicate IsPublic(path: string)
  {
    exists i :: 0 <= i < |PublicRoutes| && StartsWith(path, PublicRoutes[i])
  }

  /** The decision for a navigation to `path`; `onServer` is `import.meta.server`. */
  function Decide(onServer: bool, path: string, isAuthenticated: bool): (n: Navigation)
    ensures onServer ==> n == Proceed
    ensures !onServer && isAuthenticated ==>
              (n != Proceed <==> path == "/login" || path == "/register")
    ensures !onServer && !isAuthenticated ==> (n != Proceed <==> !IsPublic(path))
    ensures n.Redirect? ==> n.to in {"/", "/login"}
  {
    assert StartsWith("/login", PublicRoutes[0]) && StartsWith("/register", PublicRoutes[1]);
    if onServer then Proceed
    else if IsPublic(path) then
      if isAuthenticated && (path == "/login" || path == "/register") then Redirect("/") else Proceed
    else if !isAuthenticated then Redirect("/login")
    else Proceed
  }

  /** The prefix test makes `/docsX` and `/login/anything` public; `/` is not. */
  lemma PublicExamples()
    ensures IsPublic("/docsX") && IsPublic("/login/reset") && IsPublic("/register")
    ensures !IsPublic("/") && !IsPublic("/users") && !IsPublic("/doc")
  {
    assert StartsWith("/docsX", PublicRoutes[2]);
    assert StartsWith("/login/reset", PublicRoutes[0]);
    assert StartsWith("/register", PublicRoutes[1]);
    assert !IsPublic("/") by {
      forall i | 0 <= i < |PublicRoutes| ensures !StartsWith("/", PublicRoutes[i]) { }
    }
    assert !IsPublic("/users") by {
      forall i | 0 <= i < |PublicRoutes| ensures !StartsWith("/users", PublicRoutes[i]) {
        assert PublicRoutes[i][1] != "/users"[1];
      }
    }
    assert !IsPublic("/doc") by {
      forall i | 0 <= i < |PublicRoutes| ensures !StartsWith("/doc", PublicRoutes[i]) {
        assert i == 2 ==> |PublicRoutes[i]| > |"/doc"|;
        assert i != 2 ==> PublicRoutes[i][1] != "/doc"[1];
      }
    }
  }

  /**
   * The guard never redirects in a loop: whatever it redirects to, it lets
   * the same client through on the next navigation.
   */
  lemma RedirectsSettle(path: string, isAuthenticated: bool)
    ensures var n := Decide(false, path, isAuthenticated);
            n.Redirect? ==> Decide(false, n.to, isAuthenticated) == Proceed
  {
    var n := Decide(false, path, isAuthenticated);
    if n.Redirect? {
      if isAuthenticated {
        assert !IsPublic("/") by {
          forall i | 0 <= i < |PublicRoutes| ensures !StartsWith("/", PublicRoutes[i]) { }
        }
      } else {
        assert StartsWith("/login", PublicRoutes[0]);
      }
    }
  }
}
