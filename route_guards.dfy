/** `ProtectedRoute` and `GuestRoute` of src/shared/components/ProtectedRoute.tsx. */
module RouteGuards {
  import opened Navigation
  import AuthContext

  /** What a guard renders: its children unchanged, or a `<Navigate replace>`. */
  datatype Rendered = Children | Redirect(nav: Effect)

  function ProtectedRoute(isAuthenticated: bool): Rendered {
    if !isAuthenticated then Redirect(Navigate(LoginPath, true)) else Children
  }

  function GuestRoute(isAuthenticated: bool): Rendered {
    if isAuthenticated then Redirect(Navigate(BoardsPath, true)) else Children
  }

  /** For either state exactly one of the two guards shows its children; the
      other sends a visitor to the login page or to the list, replacing the
      history entry. */
  lemma GuardsSpec(isAuthenticated: bool)
    ensures ProtectedRoute(isAuthenticated).Children? != GuestRoute(isAuthenticated).Children?
    ensures ProtectedRoute(isAuthenticated).Children? <==> isAuthenticated
    ensures !isAuthenticated ==> ProtectedRoute(isAuthenticated) == Redirect(Navigate(LoginPath, true))
    ensures isAuthenticated ==> GuestRoute(isAuthenticated) == Redirect(Navigate(BoardsPath, true))
  {
  }

  /** Signing out through the provider navigates nowhere by itself, yet the
      next render of a protected page redirects to the login page. */
  method SignOutLeavesProtectedPages(provider: AuthContext.AuthProvider) returns (r: Rendered)
    modifies provider, provider.store
    ensures r == Redirect(Navigate(LoginPath, true))
  {
    provider.SignOut();
    r := ProtectedRoute(provider.isAuthenticated);
  }
}
