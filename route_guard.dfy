/**
 * The frontend's route guard: a decision, per request, between letting the
 * request through and redirecting it, made from the path, the `token`
 * cookie and the role recorded in the `user` cookie. Route classes are
 * decided by plain string prefix.
 */
module RouteGuard {
  import opened Wrappers

  /** The decoded `user` cookie; only its role is consulted, and it may be absent. */
  datatype UserCookie = UserCookie(role: Option<string>)

  /**
   * A request as the guard sees it: the path, the full URL, the `token`
   * cookie's value and the parsed `user` cookie (None when the cookie is
   * missing or empty).
   */
  datatype Request = Request(pathname: string, url: string, token: Option<string>, user: Option<UserCookie>)

  /** Let the request through, or redirect it, with a callbackUrl query parameter when one is set. */
  datatype Response = Next | Redirect(location: string, callbackUrl: Option<string>)

  const PublicRoutes: seq<string> := ["/login", "/register"]

  /** Whether the path begins with at least one of the routes. */
  function SomePrefix(routes: seq<string>, pathname: string): (r: bool)
    ensures r <==> exists i | 0 <= i < |routes| :: routes[i] <= pathname
  {
    if routes == [] then false
    else routes[0] <= pathname || SomePrefix(routes[1..], pathname)
  }

  function IsPublicRoute(pathname: string): (r: bool)
    ensures r <==> "/login" <= pathname || "/register" <= pathname
  {
    assert |PublicRoutes| == 2 && PublicRoutes[0] == "/login" && PublicRoutes[1] == "/register";
    SomePrefix(PublicRoutes, pathname)
  }

  /** The prefixes isAdminRoute tests, as a route list like PublicRoutes. */
  const AdminRoutes: seq<string> := ["/users", "/settings"]

  function IsAdminRoute(pathname: string): (r: bool)
    ensures r <==> SomePrefix(AdminRoutes, pathname)
  {
    assert |AdminRoutes| == 2 && AdminRoutes[0] == "/users" && AdminRoutes[1] == "/settings";
    "/users" <= pathname || "/settings" <= pathname
  }

  /** A cookie value is truthy when it is present and not the empty string. */
  predicate HasToken(req: Request) {
    req.token.Some? && req.token.value != ""
  }

  /** The user cookie is present and records the admin role; a missing cookie or role is not admin. */
  predicate IsAdmin(req: Request) {
    req.user.Some? && req.user.value.role == Some("admin")
  }

  /**
   * middleware: the root always passes; a public route sends a signed-in
   * visitor home and lets others through; any other route without a token
   * goes to /login with the original URL as callbackUrl; an admin route
   * sends a signed-in non-admin home; everything else passes.
   */
  function Middleware(req: Request): (r: Response)
    ensures req.pathname == "/" ==> r == Next
    ensures req.pathname != "/" && IsPublicRoute(req.pathname) ==>
              r == (if HasToken(req) then Redirect("/", None) else Next)
    ensures req.pathname != "/" && !IsPublicRoute(req.pathname) && !HasToken(req) ==>
              r == Redirect("/login", Some(req.url))
    ensures req.pathname != "/" && !IsPublicRoute(req.pathname) && HasToken(req) ==>
              r == (if IsAdminRoute(req.pathname) && !IsAdmin(req) then Redirect("/", None) else Next)
  {
    if req.pathname == "/" then Next
    else if IsPublicRoute(req.pathname) then
      if HasToken(req) then Redirect("/", None) else Next
    else if !HasToken(req) then
      Redirect("/login", Some(req.url))
    else if IsAdminRoute(req.pathname) && !IsAdmin(req) then
      Redirect("/", None)
    else
      Next
  }

  /** No path is both public and administrative. */
  lemma PublicAndAdminDisjoint(pathname: string)
    ensures !(IsPublicRoute(pathname) && IsAdminRoute(pathname))
  {
    if IsPublicRoute(pathname) {
      assert pathname[1] == 'l' || pathname[1] == 'r';
    }
  }

  /** An admin route is only let through for a signed-in admin. */
  lemma AdminRoutesNeedAdmin(req: Request)
    requires IsAdminRoute(req.pathname) && Middleware(req) == Next
    ensures HasToken(req) && IsAdmin(req)
  {
    PublicAndAdminDisjoint(req.pathname);
  }

  /** Apart from the root and the public routes, nothing is let through without a token. */
  lemma ProtectedRoutesNeedToken(req: Request)
    requires req.pathname != "/" && !IsPublicRoute(req.pathname) && Middleware(req) == Next
    ensures HasToken(req)
  {
  }

  /** A request that carries a token is never sent to the login page. */
  lemma SignedInNeverSentToLogin(req: Request)
    requires HasToken(req)
    ensures Middleware(req) == Next || Middleware(req) == Redirect("/", None)
  {
  }

  /**
   * Redirects do not loop: following a redirect with the same cookies is
   * let through (home always is, and /login is for a visitor without a token).
   */
  lemma RedirectTargetPasses(req: Request)
    requires Middleware(req).Redirect?
    ensures Middleware(req.(pathname := Middleware(req).location)) == Next
  {
  }

  /** Matching is by bare prefix: /loginx counts as public and /usersettings as administrative. */
  lemma PrefixMatchingIsLoose()
    ensures IsPublicRoute("/loginx") && IsAdminRoute("/usersettings")
    ensures !IsPublicRoute("/") && !IsAdminRoute("/")
  {
  }
}
