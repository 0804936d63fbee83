/**
 * The session manager (`AuthProvider`): four state fields updated step by
 * step after calls into the credential store. The source's try/catch/finally
 * ordering decides which updates happen when a storage call throws.
 */
module Auth {
  import opened Wrappers
  import opened Json
  import opened BrowserStorage
  import opened Credentials

  const RESTORE_FAILED: string := "Failed to restore authentication"
  const LOGIN_FAILED: string := "Failed to log in"
  const LOGOUT_FAILED: string := "Failed to log out"
  const UPDATE_FAILED: string := "Failed to update user data"

  class AuthProvider {
    const tokens: TokenManager
    var isAuthenticated: bool
    /** The current user record; `Null` is `null`. */
    var user: Value
    var loading: bool
    var error: Option<string>

    /** The initial state: unauthenticated, no user, loading, no error. */
    constructor (tokens: TokenManager)
      ensures this.tokens == tokens
      ensures !isAuthenticated && user == Null && loading && error == None
    {
      this.tokens := tokens;
      isAuthenticated, user, loading, error := false, Null, true, None;
    }

    /**
     * `initAuth`: authenticate with the stored user record only when both the
     * stored token and the stored user data are truthy; malformed user data is
     * caught and reported; `loading` is cleared in every case. Storage is only
     * read.
     */
    method InitAuth()
      modifies this
      ensures !loading
      ensures tokens.GetUserData().Failure? ==>
        error == Some(RESTORE_FAILED) && isAuthenticated == old(isAuthenticated) && user == old(user)
      ensures tokens.GetUserData().Success? ==> error == old(error)
      ensures tokens.GetUserData().Success? ==>
        var userData := tokens.GetUserData().value;
        if TokenTruthy(tokens.GetToken()) && Truthy(userData)
        then isAuthenticated && user == userData
        else isAuthenticated == old(isAuthenticated) && user == old(user)
    {
      var token := tokens.GetToken();
      var read := tokens.GetUserData();
      if read.Failure? {
        error := Some(RESTORE_FAILED);
      } else if TokenTruthy(token) && Truthy(read.value) {
        isAuthenticated := true;
        user := read.value;
      }
      loading := false;
    }

    /**
     * `login(token, userData)`: persist the token, then the user record; only
     * when neither write throws does the session become authenticated. An
     * empty token is not rejected: it is just not stored. A token written
     * before a throwing user-data write stays stored.
     */
    method Login(token: string, userData: Value, tokenWriteThrows: bool, userWriteThrows: bool)
      returns (ok: bool)
      modifies this, tokens.storage
      ensures var tokenFails := token != "" && tokenWriteThrows;
        var userFails := Truthy(userData) && userWriteThrows;
        && ok == (!tokenFails && !userFails)
        && tokens.storage.items ==
             if tokenFails then old(tokens.storage.items)
             else if userFails then StoreToken(old(tokens.storage.items), token)
             else StoreUserData(tokens.json, StoreToken(old(tokens.storage.items), token), userData)
      ensures ok ==> isAuthenticated && user == userData && error == None
      ensures !ok ==>
        isAuthenticated == old(isAuthenticated) && user == old(user) && error == Some(LOGIN_FAILED)
      ensures loading == old(loading)
    {
      var written := tokens.SetToken(token, tokenWriteThrows);
      if written.Fail? {
        error := Some(LOGIN_FAILED);
        return false;
      }
      written := tokens.SetUserData(userData, userWriteThrows);
      if written.Fail? {
        error := Some(LOGIN_FAILED);
        return false;
      }
      isAuthenticated := true;
      user := userData;
      error := None;
      ok := true;
    }

    /** `logout()`: clear both stored credentials, then the session. */
    method Logout(firstThrows: bool, secondThrows: bool) returns (ok: bool)
      modifies this, tokens.storage
      ensures ok == (!firstThrows && !secondThrows)
      ensures tokens.storage.items ==
        if firstThrows then old(tokens.storage.items)
        else if secondThrows then old(tokens.storage.items) - {AUTH_TOKEN}
        else Cleared(old(tokens.storage.items))
      ensures ok ==> !isAuthenticated && user == Null && error == None
      ensures !ok ==>
        isAuthenticated == old(isAuthenticated) && user == old(user) && error == Some(LOGOUT_FAILED)
      ensures loading == old(loading)
    {
      var cleared := tokens.ClearAll(firstThrows, secondThrows);
      if cleared.Fail? {
        error := Some(LOGOUT_FAILED);
        return false;
      }
      isAuthenticated := false;
      user := Null;
      error := None;
      ok := true;
    }

    /**
     * `updateUser(userData)`: persist the record (skipped when falsy) and
     * adopt it in memory; the authentication flag and the token stay.
     */
    method UpdateUser(userData: Value, throws: bool) returns (ok: bool)
      modifies this, tokens.storage
      ensures ok == !(Truthy(userData) && throws)
      ensures tokens.storage.items ==
        if ok then StoreUserData(tokens.json, old(tokens.storage.items), userData)
        else old(tokens.storage.items)
      ensures tokens.GetToken() == old(tokens.GetToken())
      ensures isAuthenticated == old(isAuthenticated) && loading == old(loading)
      ensures ok ==> user == userData && error == None
      ensures !ok ==> user == old(user) && error == Some(UPDATE_FAILED)
    {
      var written := tokens.SetUserData(userData, throws);
      if written.Fail? {
        error := Some(UPDATE_FAILED);
        return false;
      }
      user := userData;
      error := None;
      ok := true;
    }

    /** `clearError()`. */
    method ClearError()
      modifies this`error
      ensures error == None
    {
      error := None;
    }
  }

  /** A successful login followed by a successful logout leaves neither credential stored. */
  method LoginThenLogout(auth: AuthProvider, token: string, userData: Value)
    returns (loggedIn: bool, loggedOut: bool)
    modifies auth, auth.tokens.storage
    ensures loggedIn && loggedOut
    ensures AUTH_TOKEN !in auth.tokens.storage.items && USER_DATA !in auth.tokens.storage.items
    ensures !auth.isAuthenticated && auth.user == Null && auth.error == None
  {
    loggedIn := auth.Login(token, userData, false, false);
    loggedOut := auth.Logout(false, false);
  }

  /** Logging out a second time changes nothing further. */
  method LogoutTwice(auth: AuthProvider) returns (first: bool, second: bool)
    modifies auth, auth.tokens.storage
    ensures first && second
    ensures auth.tokens.storage.items == Cleared(old(auth.tokens.storage.items))
    ensures !auth.isAuthenticated && auth.user == Null && auth.error == None
    ensures auth.loading == old(auth.loading)
  {
    first := auth.Logout(false, false);
    second := auth.Logout(false, false);
    ClearedIdempotent(old(auth.tokens.storage.items));
  }

  /** Storage holding only `auth_token = "abc"` does not restore a session. */
  method TokenOnlyScenario(json: Codec) returns (authenticated: bool, loading: bool, error: Option<string>)
    ensures !authenticated && !loading && error == None
  {
    var storage := new LocalStorage(map[AUTH_TOKEN := "abc"]);
    var tokens := new TokenManager(storage, json);
    var auth := new AuthProvider(tokens);
    auth.InitAuth();
    authenticated, loading, error := auth.isAuthenticated, auth.loading, auth.error;
  }

  /** Stored token and user record restore the session with that record. */
  method RestoreScenario(json: Codec, userData: Value) returns (authenticated: bool, user: Value)
    requires Lawful(json) && Truthy(userData)
    ensures authenticated && user == userData
  {
    var storage := new LocalStorage(map[AUTH_TOKEN := "abc", USER_DATA := json.serialize(userData)]);
    var tokens := new TokenManager(storage, json);
    var auth := new AuthProvider(tokens);
    UserDataRoundTrip(json, map[AUTH_TOKEN := "abc"], userData);
    assert storage.items == StoreUserData(json, map[AUTH_TOKEN := "abc"], userData);
    auth.InitAuth();
    authenticated, user := auth.isAuthenticated, auth.user;
  }

  /**
   * An empty token is not rejected: the login succeeds and the session is
   * authenticated although no token is stored.
   */
  method EmptyTokenScenario(json: Codec, userData: Value)
    returns (ok: bool, authenticated: bool, stored: Option<string>)
    ensures ok && authenticated && stored == None
  {
    var storage := new LocalStorage(map[]);
    var tokens := new TokenManager(storage, json);
    var auth := new AuthProvider(tokens);
    ok := auth.Login("", userData, false, false);
    authenticated, stored := auth.isAuthenticated, tokens.GetToken();
  }
}
