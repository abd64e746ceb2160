/**
 * The two route guards: pages for signed-in users and pages for visitors. While the
 * session is being restored both show a loader; afterwards each either renders its
 * pages or redirects to the other side.
 */
module Routes {

  /** What the authentication context reports. */
  datatype AuthState = AuthState(isAuthenticated: bool, isLoading: bool)

  /** What a guard renders. */
  datatype View = Loader | Redirect(to: string) | Outlet

  const SignInPath: string := "/signin"
  const DashboardPath: string := "/dashboard"

  /** `ProtectedRoute`. */
  function ProtectedRoute(a: AuthState): (v: View)
    ensures a.isLoading ==> v == Loader
    ensures !a.isLoading ==> (v == Outlet <==> a.isAuthenticated)
    ensures !a.isLoading && !a.isAuthenticated ==> v == Redirect(SignInPath)
  {
    if a.isLoading then Loader
    else if !a.isAuthenticated then Redirect(SignInPath)
    else Outlet
  }

  /** `PublicRoute`. */
  function PublicRoute(a: AuthState): (v: View)
    ensures a.isLoading ==> v == Loader
    ensures !a.isLoading ==> (v == Outlet <==> !a.isAuthenticated)
    ensures !a.isLoading && a.isAuthenticated ==> v == Redirect(DashboardPath)
  {
    if a.isLoading then Loader
    else if a.isAuthenticated then Redirect(DashboardPath)
    else Outlet
  }

  /**
   * Once the session is known, exactly one of the guards renders its pages, and the other
   * redirects to a page the first one serves.
   */
  lemma ExactlyOneOutlet(a: AuthState)
    requires !a.isLoading
    ensures (ProtectedRoute(a) == Outlet) != (PublicRoute(a) == Outlet)
    ensures ProtectedRoute(a).Redirect? <==> PublicRoute(a) == Outlet
    ensures PublicRoute(a).Redirect? <==> ProtectedRoute(a) == Outlet
  {
  }

  /** While loading, the guards agree and neither renders pages nor redirects. */
  lemma LoadingShowsLoader(a: AuthState)
    requires a.isLoading
    ensures ProtectedRoute(a) == PublicRoute(a) == Loader
  {
  }
}
