/** The `AuthProvider` of src/features/auth/context/AuthContext.tsx: React
    state `isAuthenticated`, the callback its effect writes into
    `tokenStorage.onAuthChange`, and the `markAsAuthenticated` and `signOut`
    actions. The token store never reads that property, so invoking the
    callback is an input from outside the model. */
module AuthContext {
  import opened Common
  import opened TokenStorage
  import opened Navigation

  class AuthProvider {
    const store: TokenStore
    var isAuthenticated: bool

    /** First render: `useState(() => tokenStorage.hasTokens())`. */
    constructor (store: TokenStore)
      ensures this.store == store
      ensures isAuthenticated == store.LoggedIn()
    {
      this.store := store;
      var has := store.HasTokens();
      isAuthenticated := has;
    }

    /** The registered callback: mirror the flag and leave for the login page
        (replacing the history entry) when it turns false. */
    method OnAuthChange(authenticated: bool) returns (nav: Option<Effect>)
      modifies this
      ensures isAuthenticated == authenticated
      ensures nav.Some? <==> !authenticated
      ensures nav.Some? ==> nav.value == Navigate(LoginPath, true)
    {
      isAuthenticated := authenticated;
      if !authenticated {
        nav := Some(Navigate(LoginPath, true));
      } else {
        nav := None;
      }
    }

    /** `markAsAuthenticated`: only the flag changes; the tokens are untouched. */
    method MarkAsAuthenticated()
      modifies this
      ensures isAuthenticated
    {
      isAuthenticated := true;
    }

    /** `signOut`: clear the tokens, then the flag. It navigates nowhere itself. */
    method SignOut()
      modifies this, store
      ensures !isAuthenticated
      ensures store.accessTokenInMemory == None
      ensures store.cookies == old(store.cookies) - {RefreshTokenKey}
      ensures isAuthenticated == store.LoggedIn()
    {
      store.ClearTokens();
      isAuthenticated := false;
    }
  }

  /** The `onAuthChange` property that the provider's effect adds to the
      `tokenStorage` object: a single nullable slot. */
  class AuthChangeSlot {
    var callback: AuthProvider?

    constructor ()
      ensures callback == null
    {
      callback := null;
    }

    /** The effect body: the provider's callback replaces whatever was there. */
    method Register(p: AuthProvider)
      modifies this
      ensures callback == p
    {
      callback := p;
    }

    /** The effect cleanup: reset to null, whoever registered last. */
    method Cleanup()
      modifies this
      ensures callback == null
    {
      callback := null;
    }

    /** Calling `tokenStorage.onAuthChange(authenticated)` while a callback is
        registered (calling the null slot would be a TypeError). */
    method Invoke(authenticated: bool) returns (nav: Option<Effect>)
      requires callback != null
      modifies callback
      ensures callback.isAuthenticated == authenticated
      ensures nav.Some? <==> !authenticated
      ensures nav.Some? ==> nav.value == Navigate(LoginPath, true)
    {
      nav := callback.OnAuthChange(authenticated);
    }
  }

  /** Two providers mounted at once share the one slot: the second
      registration replaces the first, and when the first provider unmounts
      its cleanup empties the slot although the second one still owns it,
      because the cleanup does not check who owns the slot. */
  method StaleCleanup(slot: AuthChangeSlot, older: AuthProvider, newer: AuthProvider)
    returns (afterSecond: AuthProvider?)
    modifies slot
    ensures afterSecond == newer
    ensures slot.callback == null
  {
    slot.Register(older);
    slot.Register(newer);
    afterSecond := slot.callback;
    slot.Cleanup();
  }
}
