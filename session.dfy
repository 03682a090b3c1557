/** A failed token refresh seen from the whole session: the Axios interceptor
    of src/shared/api/client.ts, the zustand store of
    src/features/auth/store/useAuthStore.ts and the `AuthProvider` of
    src/features/auth/context/AuthContext.tsx, all over one token store. */
module Session {
  import opened Common
  import opened TokenStorage
  import opened Navigation
  import opened ApiClient
  import AuthStore
  import AuthContext
  import RouteGuards

  /** Two requests fail with 401 while signed in and the refresh POST then
      fails, with the code as written: the interceptor rejects both and
      clears the tokens, but nothing tells either flag, so both still say
      signed in and a protected page keeps rendering. */
  method RefreshFailureLeavesUiSignedIn(
    ic: Interceptor, authStore: AuthStore.AuthStore, provider: AuthContext.AuthProvider,
    r1: RequestConfig, r2: RequestConfig, e: ApiError, err: ApiError)
    returns (first: Outcome, second: Outcome, owner: Outcome, waiters: seq<Outcome>, page: RouteGuards.Rendered)
    requires ic.Valid() && !ic.isRefreshing
    requires r1 != r2 && !r1.retry && !r2.retry
    requires e.status == Some(401)
    requires HasTokensIn(ic.store.cookies)
    requires authStore.store == ic.store && provider.store == ic.store
    requires authStore.isAuthenticated && provider.isAuthenticated
    modifies ic, ic.store, r1, r2
    ensures first.AwaitingRefresh? && second == Queued
    ensures owner == Rejected(err) && waiters == [Rejected(err)]
    ensures !ic.store.LoggedIn() && ic.store.accessTokenInMemory == None
    ensures authStore.isAuthenticated && provider.isAuthenticated
    ensures page == RouteGuards.Children
  {
    first := ic.OnResponseError(r1, e);
    second := ic.OnResponseError(r2, e);
    owner, waiters := ic.CompleteRefresh(RefreshFailed(err));
    page := RouteGuards.ProtectedRoute(provider.isAuthenticated);
  }

  /** The same failure with the sign-out that the store's and the provider's
      comments describe: after the interceptor clears the tokens,
      `forceSignOut` runs and the provider's `onAuthChange` callback is
      called with `false`. Both flags then agree with the cookie, the page
      is replaced by the login page, and a protected page redirects. */
  method RefreshFailureSignsOut(
    ic: Interceptor, authStore: AuthStore.AuthStore, provider: AuthContext.AuthProvider,
    r1: RequestConfig, r2: RequestConfig, e: ApiError, err: ApiError)
    returns (owner: Outcome, waiters: seq<Outcome>, nav: Effect, callbackNav: Option<Effect>, page: RouteGuards.Rendered)
    requires ic.Valid() && !ic.isRefreshing
    requires r1 != r2 && !r1.retry && !r2.retry
    requires e.status == Some(401)
    requires HasTokensIn(ic.store.cookies)
    requires authStore.store == ic.store && provider.store == ic.store
    requires authStore.isAuthenticated && provider.isAuthenticated
    modifies ic, ic.store, r1, r2, authStore, provider
    ensures owner == Rejected(err) && waiters == [Rejected(err)]
    ensures !ic.store.LoggedIn() && ic.store.accessTokenInMemory == None
    ensures authStore.isAuthenticated == ic.store.LoggedIn()
    ensures provider.isAuthenticated == ic.store.LoggedIn()
    ensures nav == LocationReplace(LoginPath)
    ensures callbackNav == Some(Navigate(LoginPath, true))
    ensures page == RouteGuards.Redirect(Navigate(LoginPath, true))
  {
    var first := ic.OnResponseError(r1, e);
    var second := ic.OnResponseError(r2, e);
    owner, waiters := ic.CompleteRefresh(RefreshFailed(err));
    nav := authStore.ForceSignOut();
    callbackNav := provider.OnAuthChange(false);
    page := RouteGuards.ProtectedRoute(provider.isAuthenticated);
  }
}
