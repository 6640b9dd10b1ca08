/**
 * The route guard of the login-based frontend: what a protected page shows
 * for the authentication context's `loading`, `isAuthenticated` and
 * `isAdmin()`, and the route's `adminOnly` flag.
 */
module ProtectedRoute {
  import opened Wrappers

  /** What the guard renders. */
  datatype View = Spinner | RedirectToLogin | AccessDenied | Children

  /** The login page unauthenticated visitors are sent to. */
  const LoginPath := "/login"

  /** The guard; an absent `adminOnly` prop means false. */
  function Decide(loading: bool, isAuthenticated: bool, isAdmin: bool, adminOnly: Option<bool>): (v: View)
    ensures loading ==> v == Spinner
    ensures !loading && !isAuthenticated ==> v == RedirectToLogin
    ensures v == AccessDenied <==> !loading && isAuthenticated && adminOnly.GetOr(false) && !isAdmin
    ensures v == Children <==> !loading && isAuthenticated && (!adminOnly.GetOr(false) || isAdmin)
  {
    if loading then Spinner
    else if !isAuthenticated then RedirectToLogin
    else if adminOnly.GetOr(false) && !isAdmin then AccessDenied
    else Children
  }

  /** An unauthenticated visitor never sees the page nor the denial, whatever the route. */
  lemma UnauthenticatedNeverSeesPage(loading: bool, isAdmin: bool, adminOnly: Option<bool>)
    ensures Decide(loading, false, isAdmin, adminOnly) in {Spinner, RedirectToLogin}
  {
  }

  /** A route without the prop behaves as one with `adminOnly = false`, and admits every authenticated user. */
  lemma DefaultIsNotAdminOnly(loading: bool, isAuthenticated: bool, isAdmin: bool)
    ensures Decide(loading, isAuthenticated, isAdmin, None) == Decide(loading, isAuthenticated, isAdmin, Some(false))
    ensures !loading && isAuthenticated ==> Decide(loading, isAuthenticated, isAdmin, None) == Children
  {
  }

  /** Marking a route admin-only can only turn the page into the denial, and only for non-admins. */
  lemma AdminOnlyOnlyRestricts(loading: bool, isAuthenticated: bool, isAdmin: bool)
    ensures var open := Decide(loading, isAuthenticated, isAdmin, Some(false));
      var guarded := Decide(loading, isAuthenticated, isAdmin, Some(true));
      guarded == open || (open == Children && guarded == AccessDenied && !isAdmin)
  {
  }
}
