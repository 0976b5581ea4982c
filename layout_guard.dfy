/**
 * The server-side layout guard (`load` in the root layout): a public-route
 * prefix check, then a presence check on the `authToken` cookie.
 */
module LayoutGuard {
  import opened Wrappers
  import opened Js
  import opened Storage
  import opened Kit

  const PublicRoutes: seq<string> := [LoginPath]
  const CookieName := "authToken"

  /** Some route of the list is a prefix of the path (`some` over `startsWith`). */
  function AnyStartsWith(routes: seq<string>, pathname: string): (r: bool)
    ensures r <==> exists i :: 0 <= i < |routes| && routes[i] <= pathname
  {
    if routes == [] then false
    else if routes[0] <= pathname then true
    else
      var rest := AnyStartsWith(routes[1..], pathname);
      assert forall i :: 1 <= i < |routes| ==> routes[i] == routes[1..][i - 1];
      rest
  }

  /** A route is public exactly when its path starts with `/login` (so `/loginxyz` is public too). */
  function IsPublicRoute(pathname: string): (r: bool)
    ensures r <==> LoginPath <= pathname
  {
    AnyStartsWith(PublicRoutes, pathname)
  }

  /** What the guard sees of the request: the URL and the cookies sent (name to value). */
  datatype Request = Request(pathname: string, search: string, cookies: map<string, string>)

  /** `load`: a non-public route without a truthy `authToken` cookie is redirected to the login page. */
  function Load(req: Request): (r: Outcome)
    ensures r == Data || r == Redirect(Found, LoginPath)
    ensures r == Redirect(Found, LoginPath) <==> !IsPublicRoute(req.pathname) && !Truthy(Get(req.cookies, CookieName))
  {
    if !IsPublicRoute(req.pathname) && !Truthy(Get(req.cookies, CookieName)) then Redirect(Found, LoginPath)
    else Data
  }

  /** Any path that extends `/login` is let through, whatever the cookies. */
  lemma LoginPrefixNeverRedirects(suffix: string, search: string, cookies: map<string, string>)
    ensures Load(Request(LoginPath + suffix, search, cookies)) == Data
  {
    assert (LoginPath + suffix)[..|LoginPath|] == LoginPath;
  }

  /** The decision reads only the pathname and the `authToken` cookie. */
  lemma DecidedByPathAndCookie(a: Request, b: Request)
    requires a.pathname == b.pathname && Get(a.cookies, CookieName) == Get(b.cookies, CookieName)
    ensures Load(a) == Load(b)
  {
  }
}
