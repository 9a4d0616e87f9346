/** The request gate run before every page: paths under the sign-in,
    sign-up, reset and OAuth-callback routes pass; any other path needs a
    signed-in user, and without one the request is sent to the sign-in page
    with the original path attached. */
module Middleware {
  import Text

  const PublicRoutes: seq<string> := ["/signin", "/signup", "/reset-password", "/auth/callback"]
  const SignInPath := "/signin"

  /** `routes.some(route => path.startsWith(route))` */
  function AnyPrefix(path: string, routes: seq<string>): (found: bool)
    ensures found <==> exists i :: 0 <= i < |routes| && Text.StartsWith(path, routes[i])
  {
    if routes == [] then false
    else
      assert forall i :: 1 <= i < |routes| ==> routes[i] == routes[1..][i - 1];
      Text.StartsWith(path, routes[0]) || AnyPrefix(path, routes[1..])
  }

  predicate IsPublicRoute(path: string) {
    AnyPrefix(path, PublicRoutes)
  }

  /** The gate's answer: let the request through, or redirect to sign-in
      with `redirectedFrom` set to the requested path. */
  datatype Decision = Pass | RedirectToSignIn(redirectedFrom: string)

  function Gate(path: string, signedIn: bool): (d: Decision)
    ensures d == Pass <==> IsPublicRoute(path) || signedIn
    ensures d.RedirectToSignIn? ==> d.redirectedFrom == path
  {
    if IsPublicRoute(path) then Pass
    else if !signedIn then RedirectToSignIn(path)
    else Pass
  }

  /** The match is on prefixes: any path that merely begins with a public
      route passes too, while the dashboard root does not. */
  lemma PrefixMatch()
    ensures IsPublicRoute("/signup-x")
    ensures IsPublicRoute("/auth/callback/x")
    ensures !IsPublicRoute("/")
    ensures !IsPublicRoute("/sign")
  {
    assert Text.StartsWith("/signup-x", PublicRoutes[1]);
    assert Text.StartsWith("/auth/callback/x", PublicRoutes[3]);
    assert !Text.StartsWith("/sign", PublicRoutes[0]);
  }

  /** The redirect target is itself public, so a signed-out user sent
      there is let through rather than redirected again. */
  lemma RedirectTargetPasses()
    ensures Gate(SignInPath, false) == Pass
  {
    assert Text.StartsWith(SignInPath, PublicRoutes[0]);
  }
}
