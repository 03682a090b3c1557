/** The token store of src/shared/api/tokenStorage.ts: the access token in a
    module variable (lost on reload), the refresh token in a cookie. The
    browser's cookie jar is modelled as a map owned by the store. */
module TokenStorage {
  import opened Common

  const RefreshTokenKey := "refreshToken"

  /** `Cookies.get(REFRESH_TOKEN_KEY) ?? null` over a cookie jar. */
  function RefreshTokenIn(jar: map<string, string>): (r: Option<string>)
    ensures r.Some? <==> RefreshTokenKey in jar
    ensures r.Some? ==> r.value == jar[RefreshTokenKey]
  {
    if RefreshTokenKey in jar then Some(jar[RefreshTokenKey]) else None
  }

  /** `!!Cookies.get(REFRESH_TOKEN_KEY)`: a refresh-token cookie that is present and non-empty. */
  predicate HasTokensIn(jar: map<string, string>) {
    Truthy(RefreshTokenIn(jar))
  }

  /** `hasTokens()` looks at the refresh-token cookie alone: it is true exactly
      when that cookie exists and is not the empty string. */
  lemma HasTokensIffRefreshCookie(jar: map<string, string>)
    ensures HasTokensIn(jar) <==> RefreshTokenKey in jar && jar[RefreshTokenKey] != ""
  {
  }

  class TokenStore {
    /** `accessTokenInMemory`; `null` is `None`. */
    var accessTokenInMemory: Option<string>
    /** The browser's cookie jar, of which the store reads and writes one entry. */
    var cookies: map<string, string>

    function RefreshToken(): Option<string>
      reads this
    {
      RefreshTokenIn(cookies)
    }

    predicate LoggedIn()
      reads this
    {
      HasTokensIn(cookies)
    }

    /** A page load: the module variable starts at `null`, the cookies survive. */
    constructor (jar: map<string, string>)
      ensures accessTokenInMemory == None
      ensures cookies == jar
      ensures LoggedIn() == HasTokensIn(jar)
    {
      accessTokenInMemory := None;
      cookies := jar;
    }

    method GetAccessToken() returns (t: Option<string>)
      ensures t == accessTokenInMemory
    {
      t := accessTokenInMemory;
    }

    method GetRefreshToken() returns (t: Option<string>)
      ensures t.Some? <==> RefreshTokenKey in cookies
      ensures t.Some? ==> t.value == cookies[RefreshTokenKey]
    {
      t := RefreshTokenIn(cookies);
    }

    /** Overwrites both tokens whatever was stored before; the other cookies are untouched. */
    method SetTokens(accessToken: string, refreshToken: string)
      modifies this
      ensures accessTokenInMemory == Some(accessToken)
      ensures cookies == old(cookies)[RefreshTokenKey := refreshToken]
      ensures RefreshToken() == Some(refreshToken)
      ensures LoggedIn() <==> refreshToken != ""
    {
      accessTokenInMemory := Some(accessToken);
      cookies := cookies[RefreshTokenKey := refreshToken];
    }

    /** Drops both tokens; the other cookies are untouched. */
    method ClearTokens()
      modifies this
      ensures accessTokenInMemory == None
      ensures cookies == old(cookies) - {RefreshTokenKey}
      ensures RefreshToken() == None && !LoggedIn()
    {
      accessTokenInMemory := None;
      cookies := cookies - {RefreshTokenKey};
    }

    method HasTokens() returns (b: bool)
      ensures b <==> RefreshTokenKey in cookies && cookies[RefreshTokenKey] != ""
    {
      b := HasTokensIn(cookies);
    }
  }

  /** Round trip: what `setTokens` stored is what the getters return. */
  method SetThenGet(store: TokenStore, a: string, r: string) returns (access: Option<string>, refresh: Option<string>)
    modifies store
    ensures access == Some(a) && refresh == Some(r)
  {
    store.SetTokens(a, r);
    access := store.GetAccessToken();
    refresh := store.GetRefreshToken();
  }

  /** Clearing twice leaves the same state as clearing once, and `hasTokens()`
      is false afterwards. */
  method ClearTwice(store: TokenStore) returns (loggedIn: bool)
    modifies store
    ensures !loggedIn
    ensures store.accessTokenInMemory == None
    ensures store.cookies == old(store.cookies) - {RefreshTokenKey}
  {
    store.ClearTokens();
    ghost var once := store.cookies;
    store.ClearTokens();
    assert store.cookies == once;
    loggedIn := store.HasTokens();
  }

  /** After a reload with a live refresh cookie the store reports a session
      while holding no access token. */
  method Reload(jar: map<string, string>) returns (store: TokenStore, access: Option<string>, loggedIn: bool)
    requires HasTokensIn(jar)
    ensures access == None && loggedIn
  {
    store := new TokenStore(jar);
    access := store.GetAccessToken();
    loggedIn := store.HasTokens();
  }
}
