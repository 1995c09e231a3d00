/** The authentication middleware's redirect policy (`afterAuth`): from whether a
    user is signed in, the result of looking up that user's role, and the request
    path, it decides either "no redirect" (None) or the path to redirect to.

    The identity provider's user lookup is an input (`Lookup`); it is consulted
    only for a signed-in user. */
module Middleware {
  import opened Wrappers

  /** The routes reachable without signing in. */
  const PublicRoutes: seq<string> := ["/", "/api/webhook/register", "/sign-up", "/sign-in"]

  const SignInPath: string := "/sign-in"
  const DashboardPath: string := "/dashboard"
  const AdminDashboardPath: string := "/admin/dashboard"
  const ErrorPath: string := "/error"
  const AdminPrefix: string := "/admin"
  const AdminRole: string := "admin"

  /** The role lookup for a signed-in user: it fails (the call throws), or it
      yields the role stored in the user's public metadata, if any. */
  datatype Lookup = LookupFailed | LookupSucceeded(role: Option<string>)

  /** `publicRoutes.includes(path)`: exact string equality with one of the entries. */
  predicate IsPublicRoute(path: string)
  {
    path in PublicRoutes
  }

  /** `path.startsWith(prefix)`. */
  predicate StartsWith(path: string, prefix: string)
  {
    prefix <= path
  }

  /** `role === "admin"`. */
  predicate IsAdmin(role: Option<string>)
  {
    role == Some(AdminRole)
  }

  /** JavaScript truthiness of `auth.userId`: present and not empty. */
  predicate SignedIn(userId: Option<string>)
  {
    userId.Some? && userId.value != ""
  }

  /** The redirect decision. Every redirect goes to one of four fixed paths. */
  function AfterAuth(userId: Option<string>, lookup: Lookup, path: string): (target: Option<string>)
    ensures target.Some? ==>
      target.value == SignInPath || target.value == DashboardPath ||
      target.value == AdminDashboardPath || target.value == ErrorPath
  {
    if !SignedIn(userId) then
      if !IsPublicRoute(path) then Some(SignInPath) else None
    else
      match lookup
      case LookupFailed => Some(ErrorPath)
      case LookupSucceeded(role) =>
        if IsAdmin(role) && path == DashboardPath then Some(AdminDashboardPath)
        else if !IsAdmin(role) && StartsWith(path, AdminPrefix) then Some(DashboardPath)
        else if IsPublicRoute(path) then Some(if IsAdmin(role) then AdminDashboardPath else DashboardPath)
        else None
  }

  /** Public-route membership is equality with one of exactly four literals. */
  lemma PublicRoutesExact(path: string)
    ensures IsPublicRoute(path) <==>
      path == "/" || path == "/api/webhook/register" || path == "/sign-up" || path == "/sign-in"
  {
  }

  /** A visitor who is not signed in is sent to the sign-in page from any
      non-public path, is left alone on a public one, and the role lookup plays
      no part. */
  lemma UnauthenticatedRedirect(userId: Option<string>, lookup: Lookup, path: string)
    requires !SignedIn(userId)
    ensures !IsPublicRoute(path) ==> AfterAuth(userId, lookup, path) == Some(SignInPath)
    ensures IsPublicRoute(path) ==> AfterAuth(userId, lookup, path) == None
  {
  }

  /** A signed-in user whose lookup fails is sent to the error page from any path. */
  lemma LookupFailureRedirectsToError(userId: Option<string>, path: string)
    requires SignedIn(userId)
    ensures AfterAuth(userId, LookupFailed, path) == Some(ErrorPath)
  {
  }

  /** An admin on exactly `/dashboard` is sent to the admin dashboard. */
  lemma AdminDashboardRedirect(userId: Option<string>)
    requires SignedIn(userId)
    ensures AfterAuth(userId, LookupSucceeded(Some(AdminRole)), DashboardPath) == Some(AdminDashboardPath)
  {
  }

  /** A signed-in user who is not an admin (no role included) is sent to
      `/dashboard` from every path that starts with `/admin`. */
  lemma NonAdminKeptOutOfAdmin(userId: Option<string>, role: Option<string>, path: string)
    requires SignedIn(userId) && !IsAdmin(role)
    requires StartsWith(path, AdminPrefix)
    ensures AfterAuth(userId, LookupSucceeded(role), path) == Some(DashboardPath)
  {
  }

  /** A signed-in user on a public route is sent to the admin dashboard if an
      admin, to `/dashboard` otherwise. */
  lemma SignedInLeavesPublicRoute(userId: Option<string>, role: Option<string>, path: string)
    requires SignedIn(userId) && IsPublicRoute(path)
    ensures AfterAuth(userId, LookupSucceeded(role), path)
         == Some(if IsAdmin(role) then AdminDashboardPath else DashboardPath)
  {
  }

  /** For a signed-in user with a successful lookup, there is no redirect exactly
      when none of the three rules applies. */
  lemma NoRuleNoRedirect(userId: Option<string>, role: Option<string>, path: string)
    requires SignedIn(userId)
    ensures AfterAuth(userId, LookupSucceeded(role), path).None? <==>
      !(IsAdmin(role) && path == DashboardPath) &&
      !(!IsAdmin(role) && StartsWith(path, AdminPrefix)) &&
      !IsPublicRoute(path)
  {
  }

  /** The three role rules never apply to the same request (the first two differ
      on the role; the public routes are neither `/dashboard` nor under `/admin`),
      so the order in which they are tried does not change the decision. */
  lemma RulesAreExclusive(path: string)
    ensures !(path == DashboardPath && IsPublicRoute(path))
    ensures !(StartsWith(path, AdminPrefix) && IsPublicRoute(path))
  {
    assert !StartsWith("/", AdminPrefix);
    assert !StartsWith("/api/webhook/register", AdminPrefix) by {
      assert "/api/webhook/register"[2] != AdminPrefix[2];
    }
    assert !StartsWith("/sign-up", AdminPrefix) by { assert "/sign-up"[1] != AdminPrefix[1]; }
    assert !StartsWith("/sign-in", AdminPrefix) by { assert "/sign-in"[1] != AdminPrefix[1]; }
  }

  /** The three role rules of `AfterAuth` tried in the reverse order: public
      route first, then the `/admin` guard, then the admin dashboard. */
  function RoleRulesReversed(role: Option<string>, path: string): (r: Option<string>)
  {
    if IsPublicRoute(path) then Some(if IsAdmin(role) then AdminDashboardPath else DashboardPath)
    else if !IsAdmin(role) && StartsWith(path, AdminPrefix) then Some(DashboardPath)
    else if IsAdmin(role) && path == DashboardPath then Some(AdminDashboardPath)
    else None
  }

  /** Because the rules are exclusive, trying them in the reverse order gives the
      same decision for every signed-in user, role and path. */
  lemma RuleOrderIrrelevant(userId: Option<string>, role: Option<string>, path: string)
    requires SignedIn(userId)
    ensures RoleRulesReversed(role, path) == AfterAuth(userId, LookupSucceeded(role), path)
  {
    RulesAreExclusive(path);
  }

  /** A signed-in user whose lookup keeps failing is redirected from `/error` to
      `/error` again: the error page itself is not exempt from the lookup. */
  lemma ErrorPageRedirectsToItself(userId: Option<string>)
    requires SignedIn(userId)
    ensures AfterAuth(userId, LookupFailed, ErrorPath) == Some(ErrorPath)
  {
  }

  /** With the sign-in state and role fixed (and, for a signed-in user, the
      lookup succeeding), a redirect never points back at the current path, the
      target itself is not redirected again (one hop is enough), and a user who
      is not an admin is never sent to a path under `/admin`. */
  lemma RedirectSettles(userId: Option<string>, role: Option<string>, path: string)
    requires AfterAuth(userId, LookupSucceeded(role), path).Some?
    ensures AfterAuth(userId, LookupSucceeded(role), path).value != path
    ensures AfterAuth(userId, LookupSucceeded(role), AfterAuth(userId, LookupSucceeded(role), path).value) == None
    ensures !IsAdmin(role) ==> !StartsWith(AfterAuth(userId, LookupSucceeded(role), path).value, AdminPrefix)
  {
    assert StartsWith(AdminDashboardPath, AdminPrefix);
    assert !StartsWith(DashboardPath, AdminPrefix) by { assert DashboardPath[1] != AdminPrefix[1]; }
    assert !StartsWith(SignInPath, AdminPrefix) by { assert SignInPath[1] != AdminPrefix[1]; }
  }
}
