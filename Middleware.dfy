/**
 * The route guard that runs before every matched request: which requests pass, which are
 * sent to sign in, which are sent to finish onboarding, and which are turned away from the
 * admin area. The session refresh and the two table lookups are inputs: whether a user is
 * signed in, the handle of that user's profile (absent when there is no profile or no
 * handle) and the user's role (absent when there is no user row).
 */
module Middleware {
  import opened Wrappers
  import opened JsString

  datatype UserRole = User | Admin | SuperAdmin

  /** What the guard does with a request. */
  datatype Decision =
    | Pass
      /** To `/` with `auth=login` and `next` set to the requested path and query. */
    | RedirectLogin(next: string)
      /** To `/onboarding`. */
    | RedirectOnboarding
      /** To `/`. */
    | RedirectHome

  const PUBLIC_ROUTES: seq<string> := ["/", "/browse", "/listing", "/seller", "/events", "/privacy", "/terms", "/signup"]
  const ADMIN_ROUTES: seq<string> := ["/admin"]
  const AUTH_PREFIX := "/auth/"
  const ONBOARDING_PREFIX := "/onboarding"
  /** The prefix of the placeholder handle a new account receives before onboarding. */
  const PLACEHOLDER_PREFIX := "user_"

  /** The path is the route itself or lies below it. */
  predicate UnderRoute(pathname: string, route: string) {
    pathname == route || StartsWith(pathname, route + "/")
  }

  predicate IsPublic(pathname: string) {
    exists i | 0 <= i < |PUBLIC_ROUTES| :: UnderRoute(pathname, PUBLIC_ROUTES[i])
  }

  /** The admin routes are matched by plain prefix, with no segment boundary. */
  predicate IsAdminPath(pathname: string) {
    exists i | 0 <= i < |ADMIN_ROUTES| :: StartsWith(pathname, ADMIN_ROUTES[i])
  }

  predicate IsPrivileged(role: Option<UserRole>) {
    role == Some(Admin) || role == Some(SuperAdmin)
  }

  /** The profile still carries the placeholder handle. */
  predicate NeedsOnboarding(handle: Option<string>) {
    handle.Some? && StartsWith(handle.value, PLACEHOLDER_PREFIX)
  }

  /** `middleware(request)`: the checks in their fixed order, each ending the request. */
  function Decide(pathname: string, search: string, signedIn: bool,
                  handle: Option<string>, role: Option<UserRole>): (d: Decision)
    ensures IsPublic(pathname) || StartsWith(pathname, AUTH_PREFIX) ==> d == Pass
    ensures d.RedirectLogin? <==> !signedIn && !IsPublic(pathname) && !StartsWith(pathname, AUTH_PREFIX)
    ensures d.RedirectLogin? ==> d.next == pathname + search
    ensures d == RedirectOnboarding ==> signedIn && NeedsOnboarding(handle) && !StartsWith(pathname, ONBOARDING_PREFIX)
    ensures d == RedirectHome ==> signedIn && IsAdminPath(pathname) && !IsPrivileged(role)
  {
    if IsPublic(pathname) || StartsWith(pathname, AUTH_PREFIX) then Pass
    else if !signedIn then RedirectLogin(pathname + search)
    else if !StartsWith(pathname, ONBOARDING_PREFIX) && NeedsOnboarding(handle) then RedirectOnboarding
    else if IsAdminPath(pathname) && !IsPrivileged(role) then RedirectHome
    else Pass
  }

  /** The first path segment: what follows the leading `/` up to the next `/`. */
  function FirstSegment(pathname: string): (seg: string)
    requires |pathname| >= 1
    ensures '/' !in seg
  {
    Split(pathname[1..], '/')[0]
  }

  /** A route `/w` covers exactly the paths whose first segment is `w`. */
  lemma RouteBySegment(pathname: string, w: string)
    requires '/' !in w
    ensures UnderRoute(pathname, "/" + w) <==> |pathname| >= 1 && pathname[0] == '/' && FirstSegment(pathname) == w
  {
    if |pathname| >= 1 && pathname[0] == '/' {
      var rest := pathname[1..];
      SplitHead(rest, w, '/');
      assert pathname == "/" + rest;
      assert pathname == "/" + w <==> rest == w;
      assert StartsWith(pathname, "/" + w + "/") <==> StartsWith(rest, w + ['/']) by {
        if |pathname| >= |w| + 2 {
          assert pathname[..|w| + 2] == "/" + rest[..|w| + 1];
        }
      }
    }
  }

  /** A path is public exactly when it starts with `/` and `/` followed by its first segment
      is one of the public routes. So `/browse/x` is public, `/browsing` is not, and since
      the route `/` is listed, so is every path that starts with `//`. */
  lemma PublicIffFirstSegment(pathname: string)
    ensures IsPublic(pathname) <==>
            |pathname| >= 1 && pathname[0] == '/' && "/" + FirstSegment(pathname) in PUBLIC_ROUTES
  {
    forall i | 0 <= i < |PUBLIC_ROUTES|
      ensures PUBLIC_ROUTES[i] == "/" + PUBLIC_ROUTES[i][1..]
      ensures UnderRoute(pathname, PUBLIC_ROUTES[i]) <==>
              |pathname| >= 1 && pathname[0] == '/' && FirstSegment(pathname) == PUBLIC_ROUTES[i][1..]
    {
      var w := PUBLIC_ROUTES[i][1..];
      assert PUBLIC_ROUTES[i] == "/" + w;
      RouteBySegment(pathname, w);
    }
    if |pathname| >= 1 && pathname[0] == '/' && "/" + FirstSegment(pathname) in PUBLIC_ROUTES {
      var i :| 0 <= i < |PUBLIC_ROUTES| && PUBLIC_ROUTES[i] == "/" + FirstSegment(pathname);
      assert ("/" + FirstSegment(pathname))[1..] == FirstSegment(pathname);
    }
  }

  /** `/browse/x` lies below the public route `/browse`. */
  lemma BrowseSubpathIsPublic()
    ensures IsPublic("/browse/x")
  {
    assert UnderRoute("/browse/x", PUBLIC_ROUTES[1]) by {
      assert "/browse/x"[..8] == "/browse/";
    }
  }

  /** Neither `/browsing` nor `/admin` is one of the public routes. */
  lemma UnlistedRoutes()
    ensures "/browsing" !in PUBLIC_ROUTES && "/admin" !in PUBLIC_ROUTES
  {
    forall i | 0 <= i < |PUBLIC_ROUTES| ensures |PUBLIC_ROUTES[i]| != 9 {
    }
    assert "/admin" != "/terms" by { assert "/admin"[1] != "/terms"[1]; }
  }

  /** `/browsing` only shares a prefix with `/browse`, so it is not public. */
  lemma BrowsingIsNotPublic()
    ensures !IsPublic("/browsing")
  {
    PublicIffFirstSegment("/browsing");
    SplitWithoutSeparator("browsing", '/');
    assert FirstSegment("/browsing") == "browsing";
    assert "/" + FirstSegment("/browsing") == "/browsing";
    UnlistedRoutes();
  }

  /** The admin routes have no segment boundary: `/administrator` counts as an admin path. */
  lemma AdministratorIsAdminPath()
    ensures IsAdminPath("/administrator")
  {
    assert StartsWith("/administrator", ADMIN_ROUTES[0]) by {
      assert "/administrator"[..6] == "/admin";
    }
  }

  /** Public paths and paths under `/auth/` pass whoever asks. */
  lemma PublicPassesForEveryone(pathname: string, search: string, signedIn: bool,
                                handle: Option<string>, role: Option<UserRole>)
    requires |pathname| >= 1 && pathname[0] == '/' && "/" + FirstSegment(pathname) in PUBLIC_ROUTES
    ensures Decide(pathname, search, signedIn, handle, role) == Pass
  {
    PublicIffFirstSegment(pathname);
  }

  /** The onboarding redirect wins over the admin check: a placeholder-handle account is sent
      to onboarding from an admin path whatever its role. */
  lemma OnboardingBeforeAdmin(pathname: string, search: string, handle: Option<string>, role: Option<UserRole>)
    requires !IsPublic(pathname) && !StartsWith(pathname, AUTH_PREFIX) && !StartsWith(pathname, ONBOARDING_PREFIX)
    requires NeedsOnboarding(handle)
    ensures Decide(pathname, search, true, handle, role) == RedirectOnboarding
  {
  }

  /** A signed-in account that has finished onboarding reaches a non-public admin path iff its
      role is admin or super admin, and every other non-public path it asks for passes. */
  lemma SignedInAccess(pathname: string, search: string, handle: Option<string>, role: Option<UserRole>)
    requires !IsPublic(pathname) && !StartsWith(pathname, AUTH_PREFIX)
    requires !NeedsOnboarding(handle) || StartsWith(pathname, ONBOARDING_PREFIX)
    ensures Decide(pathname, search, true, handle, role) == Pass <==> !IsAdminPath(pathname) || IsPrivileged(role)
    ensures Decide(pathname, search, true, handle, role) != Pass ==> Decide(pathname, search, true, handle, role) == RedirectHome
  {
  }

  /** `/admin` has no public route as its first segment. */
  lemma AdminIsNotPublic()
    ensures !IsPublic("/admin") && !StartsWith("/admin", AUTH_PREFIX) && !StartsWith("/admin", ONBOARDING_PREFIX)
  {
    PublicIffFirstSegment("/admin");
    SplitWithoutSeparator("admin", '/');
    assert FirstSegment("/admin") == "admin";
    assert "/" + FirstSegment("/admin") == "/admin";
    UnlistedRoutes();
    assert "/admin"[2] != AUTH_PREFIX[2] && "/admin"[1] != ONBOARDING_PREFIX[1];
  }

  /** Concrete decisions on `/admin`: sign-in comes first and keeps the query, then an admin
      still holding a placeholder handle is sent to onboarding, then a plain user is sent home. */
  lemma AdminDecisionExamples()
    ensures Decide("/admin", "?tab=1", false, None, None) == RedirectLogin("/admin?tab=1")
    ensures Decide("/admin", "", true, Some("user_4f2a"), Some(Admin)) == RedirectOnboarding
    ensures Decide("/admin", "", true, Some("alice"), Some(User)) == RedirectHome
    ensures Decide("/admin", "", true, Some("alice"), Some(Admin)) == Pass
  {
    AdminIsNotPublic();
    assert StartsWith("user_4f2a", PLACEHOLDER_PREFIX) by { assert "user_4f2a"[..5] == "user_"; }
    assert !StartsWith("alice", PLACEHOLDER_PREFIX) by { assert "alice"[0] != PLACEHOLDER_PREFIX[0]; }
    assert StartsWith("/admin", ADMIN_ROUTES[0]);
  }
}
