/** The authentication provider of `src/components/auth-provider.tsx`: how the
    signed-in flag is derived from the wallet, which path redirects where, what
    logging out does, and the `useAuth` accessor. */
module AuthProvider {
  import opened Options

  /** Routes that need a signed-in wallet; matched by prefix. */
  const ProtectedRoutes: seq<string> :=
    ["/home", "/framework", "/docs", "/api-manage", "/add-agents", "/wallet", "/dashboard"]

  /** Routes a signed-in user is sent away from; matched exactly. */
  const PublicOnlyRoutes: seq<string> := ["/"]

  const Landing := "/"
  const Home := "/home"

  /** The provider's two pieces of state. */
  datatype AuthState = AuthState(isLoading: bool, isAuthenticated: bool)

  /** Before the wallet effect has run: loading and signed out. */
  const InitialAuthState := AuthState(true, false)

  /** The effect that runs whenever the wallet's connection or address
      changes: loading ends, and the user counts as signed in exactly when the
      wallet is connected and reports a non-empty address. */
  function OnWalletChange(isConnected: bool, address: Option<string>): (s: AuthState)
    ensures !s.isLoading
    ensures s.isAuthenticated <==> isConnected && address.Some? && |address.value| > 0
  {
    AuthState(false, isConnected && address.Some? && address.value != "")
  }

  /** `PROTECTED_ROUTES.some(route => pathname.startsWith(route))`, over any
      list of routes. */
  function StartsWithAny(routes: seq<string>, path: string): (r: bool)
    ensures r <==> exists i :: 0 <= i < |routes| && routes[i] <= path
    decreases |routes|
  {
    if |routes| == 0 then false
    else routes[0] <= path || StartsWithAny(routes[1..], path)
  }

  predicate IsProtectedRoute(path: string) {
    StartsWithAny(ProtectedRoutes, path)
  }

  /** `PUBLIC_ONLY_ROUTES.includes(pathname)`. */
  predicate IsPublicOnlyRoute(path: string) {
    path in PublicOnlyRoutes
  }

  /** A path is protected exactly when it begins with one of the seven listed
      prefixes (so "/homepage" and "/docs/api" are protected, "/" is not). */
  lemma ProtectedIffListedPrefix(path: string)
    ensures IsProtectedRoute(path) <==>
              || "/home" <= path || "/framework" <= path || "/docs" <= path
              || "/api-manage" <= path || "/add-agents" <= path || "/wallet" <= path
              || "/dashboard" <= path
  {
    if "/home" <= path { assert ProtectedRoutes[0] <= path; }
    if "/framework" <= path { assert ProtectedRoutes[1] <= path; }
    if "/docs" <= path { assert ProtectedRoutes[2] <= path; }
    if "/api-manage" <= path { assert ProtectedRoutes[3] <= path; }
    if "/add-agents" <= path { assert ProtectedRoutes[4] <= path; }
    if "/wallet" <= path { assert ProtectedRoutes[5] <= path; }
    if "/dashboard" <= path { assert ProtectedRoutes[6] <= path; }
  }

  datatype Redirect = NoRedirect | RedirectTo(target: string)

  /** The route-protection effect. */
  function RouteGuard(isLoading: bool, isAuthenticated: bool, path: string): (r: Redirect)
    ensures isLoading ==> r == NoRedirect
    ensures r == RedirectTo(Landing) <==> !isLoading && IsProtectedRoute(path) && !isAuthenticated
    ensures r == RedirectTo(Home) <==> !isLoading && path == Landing && isAuthenticated
    ensures r == NoRedirect || r == RedirectTo(Landing) || r == RedirectTo(Home)
  {
    if isLoading then NoRedirect
    else if IsProtectedRoute(path) && !isAuthenticated then RedirectTo(Landing)
    else if IsPublicOnlyRoute(path) && isAuthenticated then RedirectTo(Home)
    else NoRedirect
  }

  /** The landing page is not protected, which is why the two redirects never
      compete: an unauthenticated user on "/" stays, an authenticated one goes
      home. */
  lemma LandingIsNotProtected()
    ensures !IsProtectedRoute(Landing)
  {
    forall i | 0 <= i < |ProtectedRoutes|
      ensures !(ProtectedRoutes[i] <= Landing)
    {
      assert |ProtectedRoutes[i]| > 1;
    }
  }

  /** Following a redirect never triggers another one: the guard settles after
      at most one navigation. */
  lemma RedirectTargetIsStable(isAuthenticated: bool, path: string)
    ensures var r := RouteGuard(false, isAuthenticated, path);
            r.RedirectTo? ==> RouteGuard(false, isAuthenticated, r.target) == NoRedirect
  {
    LandingIsNotProtected();
  }

  /** A wallet with no address that opens a protected page is sent to the
      landing page once loading is over. */
  lemma NoAddressIsSentToLanding(isConnected: bool, address: Option<string>, path: string)
    requires address.None? || address.value == ""
    requires IsProtectedRoute(path)
    ensures var s := OnWalletChange(isConnected, address);
            RouteGuard(s.isLoading, s.isAuthenticated, path) == RedirectTo(Landing)
  {
  }

  /** What `logout` does: the navigation it issues, and whether it logged an
      error. */
  datatype LogoutOutcome = LogoutOutcome(navigateTo: Option<string>, loggedError: bool)

  /** `logout`: navigate to the landing page only after the wallet disconnected;
      a failed disconnect is logged and leaves the page where it is. */
  function Logout(disconnectSucceeded: bool): (r: LogoutOutcome)
    ensures r.navigateTo.Some? <==> disconnectSucceeded
    ensures r.navigateTo.Some? ==> r.navigateTo.value == Landing
    ensures r.loggedError <==> !disconnectSucceeded
  {
    if disconnectSucceeded then LogoutOutcome(Some(Landing), false)
    else LogoutOutcome(None, true)
  }

  /** The value the provider hands to its children (the two callbacks are not
      modelled). */
  datatype AuthContext = AuthContext(isAuthenticated: bool, isLoading: bool, address: Option<string>)

  const OutsideProviderError := "useAuth must be used within an AuthProvider"

  /** `useAuth`: the context when called under the provider, otherwise the
      error it throws. */
  function UseAuth(context: Option<AuthContext>): (r: Result<AuthContext, string>)
    ensures r.Err? <==> context.None?
    ensures r.Err? ==> r.error == OutsideProviderError
    ensures r.Ok? ==> r.value == context.value
  {
    match context
    case None => Err(OutsideProviderError)
    case Some(c) => Ok(c)
  }
}
