/** The zustand store of src/features/auth/store/useAuthStore.ts. Its two
    sign-out actions clear the tokens, drop the flag and replace the page
    with the login page; `window.location.replace` is an emitted effect. */
module AuthStore {
  import opened Common
  import opened TokenStorage
  import opened Navigation

  class AuthStore {
    const store: TokenStore
    var isAuthenticated: bool

    /** Store creation: `isAuthenticated: tokenStorage.hasTokens()`. */
    constructor (store: TokenStore)
      ensures this.store == store
      ensures isAuthenticated == store.LoggedIn()
    {
      this.store := store;
      var has := store.HasTokens();
      isAuthenticated := has;
    }

    /** `setAuthenticated(value)`: the flag becomes `value`, nothing else changes. */
    method SetAuthenticated(value: bool)
      modifies this
      ensures isAuthenticated == value
    {
      isAuthenticated := value;
    }

    /** `signOut`. */
    method SignOut() returns (nav: Effect)
      modifies this, store
      ensures !isAuthenticated
      ensures store.accessTokenInMemory == None
      ensures store.cookies == old(store.cookies) - {RefreshTokenKey}
      ensures isAuthenticated == store.LoggedIn()
      ensures nav == LocationReplace(LoginPath)
    {
      store.ClearTokens();
      isAuthenticated := false;
      nav := LocationReplace(LoginPath);
    }

    /** `forceSignOut`: the same three effects as `signOut`. */
    method ForceSignOut() returns (nav: Effect)
      modifies this, store
      ensures !isAuthenticated
      ensures store.accessTokenInMemory == None
      ensures store.cookies == old(store.cookies) - {RefreshTokenKey}
      ensures isAuthenticated == store.LoggedIn()
      ensures nav == LocationReplace(LoginPath)
    {
      store.ClearTokens();
      isAuthenticated := false;
      nav := LocationReplace(LoginPath);
    }
  }
}
