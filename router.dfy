// The single-page app's routes and its global navigation guard, as a pure
// decision over the target path, whether the target requires
// authentication, and whether the user is authenticated.

module Router {

  const LoginPath := "/login"
  const CallbackPath := "/auth/callback"
  const SendEmailPath := "/send-email"

  /** What the guard tells the router: go on, or go somewhere else instead. */
  datatype Decision = Proceed | RedirectTo(path: string)

  /** The `redirect` of the `'/'` route. */
  function RootRedirect(isAuthenticated: bool): (p: string)
    ensures p == SendEmailPath <==> isAuthenticated
    ensures p == LoginPath <==> !isAuthenticated
  {
    if isAuthenticated then SendEmailPath else LoginPath
  }

  /** `to.matched.some(record => record.meta.requiresAuth)`: of the routes, only `/send-email` is protected. */
  predicate RequiresAuth(path: string)
  {
    path == SendEmailPath
  }

  /** `router.beforeEach`: the checks in the order the guard makes them. */
  function Guard(path: string, requiresAuth: bool, isAuthenticated: bool): (d: Decision)
    ensures path == CallbackPath ==> d == Proceed
    ensures d.RedirectTo? ==> d.path in {LoginPath, SendEmailPath}
    ensures d == RedirectTo(LoginPath) <==> path != CallbackPath && requiresAuth && !isAuthenticated
    ensures d == RedirectTo(SendEmailPath) <==>
      path != CallbackPath && isAuthenticated && (path == LoginPath || !requiresAuth)
    ensures d == Proceed <==>
      path == CallbackPath
      || (!isAuthenticated && !requiresAuth)
      || (isAuthenticated && requiresAuth && path != LoginPath)
  {
    if path == CallbackPath then Proceed
    else if path == LoginPath && isAuthenticated then RedirectTo(SendEmailPath)
    else if requiresAuth && !isAuthenticated then RedirectTo(LoginPath)
    else if isAuthenticated && !requiresAuth && path != CallbackPath then RedirectTo(SendEmailPath)
    else Proceed
  }

  /** The guard applied to one of the app's own routes. */
  function Navigate(path: string, isAuthenticated: bool): Decision
  {
    Guard(path, RequiresAuth(path), isAuthenticated)
  }

  /**
   * The guard is idempotent: wherever it redirects, the guard lets the
   * user through on arrival, for the same authentication state.
   */
  lemma GuardIdempotent(path: string, requiresAuth: bool, isAuthenticated: bool)
    ensures var d := Guard(path, requiresAuth, isAuthenticated);
      d.RedirectTo? ==> Navigate(d.path, isAuthenticated) == Proceed
  {
  }

  /** The root's redirect target is itself accepted by the guard. */
  lemma RootLandsOnAcceptedRoute(isAuthenticated: bool)
    ensures Navigate(RootRedirect(isAuthenticated), isAuthenticated) == Proceed
  {
  }

  /** Of the app's routes, an unauthenticated user is sent to the login page exactly for the protected one. */
  lemma OnlySendEmailNeedsLogin(path: string)
    ensures Navigate(path, false) == RedirectTo(LoginPath) <==> path == SendEmailPath
    ensures Navigate(path, false).RedirectTo? ==> path == SendEmailPath
  {
  }
}
