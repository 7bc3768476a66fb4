/**
 * The route gate of src/components/custom-client-provider.tsx: which of the
 * children, the full-screen loader or the login page a route renders.
 */
module AuthGate {
  /** The routes shown without a session. */
  const PublicRoutes: seq<string> := ["/register", "/login", "/forgot-password", "/terms"]

  /** What the gate renders. */
  datatype GateView = Children | Loader | LoginPage(redirectTo: string)

  /** `AuthGate`: public routes first, then the loading state, then the session. */
  function Gate(pathname: string, isLoading: bool, isAuthenticated: bool): (v: GateView)
    ensures pathname in PublicRoutes ==> v == Children
    ensures pathname !in PublicRoutes && isLoading ==> v == Loader
    ensures pathname !in PublicRoutes && !isLoading && !isAuthenticated ==> v == LoginPage(pathname)
    ensures v == Children <==> pathname in PublicRoutes || (!isLoading && isAuthenticated)
  {
    if pathname in PublicRoutes then Children
    else if isLoading then Loader
    else if !isAuthenticated then LoginPage(pathname)
    else Children
  }

  /**
   * The login page appears only on a route that needs a session, so it always
   * sends the user back to such a route and never to another public page.
   */
  lemma LoginRedirectsToProtectedRoute(pathname: string, isLoading: bool, isAuthenticated: bool)
    ensures Gate(pathname, isLoading, isAuthenticated).LoginPage? ==>
      Gate(pathname, isLoading, isAuthenticated).redirectTo !in PublicRoutes && !isAuthenticated
  {
  }

  /** Exactly the four listed routes are public; a trailing slash or another case is not. */
  lemma PublicRouteExamples()
    ensures Gate("/login", true, false) == Children
    ensures Gate("/terms", false, false) == Children
    ensures Gate("/login/", false, false) == LoginPage("/login/")
    ensures Gate("/", false, false) == LoginPage("/")
  {
    assert "/login/" != "/register" && "/login/" != "/login" && "/login/" != "/forgot-password" && "/login/" != "/terms" by {
      assert |"/login/"| == 7;
      assert "/login/"[2] != "/register"[2];
      assert "/login/"[2] != "/terms"[2];
    }
  }
}
