/**
 * The session store (src/stores/auth.ts): the signed-in user, the token
 * and a loading flag, with the token kept in `localStorage` under
 * 'pos_auth_token'. Login is the store's built-in mock; the clock readings
 * it uses (`Date.now()` and `new Date().toISOString()`) are parameters.
 */
module AuthStore {
  import opened Wrappers
  import opened Text
  import opened Types
  import opened Browser

  const TokenKey := "pos_auth_token"
  const TokenPrefix := "mock-jwt-token-"

  /** The user the mock logs in, and the one it assumes for a saved or verified token. */
  function MockUser(email: string, createdAt: string): User {
    User("1", "Test", "User", email, "admin", createdAt)
  }

  /** What login reports. */
  datatype LoginResult = LoginResult(success: bool, error: Option<string>)

  /** isLoggedIn: a user and a non-empty token. */
  predicate LoggedIn(user: Option<User>, token: Option<string>) {
    user.Some? && token.Some? && token.value != ""
  }

  /** userName: 'first last' for a user, '' without one. */
  function NameOf(user: Option<User>): (r: string)
    ensures user.None? ==> r == ""
    ensures user.Some? ==> r == user.value.firstName + " " + user.value.lastName
  {
    if user.Some? then user.value.firstName + " " + user.value.lastName else ""
  }

  /** userRole: the user's role, or '' without a user. */
  function RoleOf(user: Option<User>): (r: string)
    ensures user.None? ==> r == ""
    ensures user.Some? ==> r == user.value.role
  {
    if user.Some? && user.value.role != "" then user.value.role else ""
  }

  class AuthStore {
    var user: Option<User>
    var token: Option<string>
    var isLoading: bool
    const storage: LocalStorage

    constructor (storage: LocalStorage)
      ensures this.storage == storage && user == None && token == None && !isLoading
    {
      this.storage := storage;
      user := None;
      token := None;
      isLoading := false;
    }

    predicate IsLoggedIn()
      reads this
    {
      LoggedIn(user, token)
    }

    function UserName(): string
      reads this
    {
      NameOf(user)
    }

    function UserRole(): string
      reads this
    {
      RoleOf(user)
    }

    /**
     * login: with a non-empty email and password, sign in the mock user
     * under that email and store a token 'mock-jwt-token-<now>'; otherwise
     * report 'Invalid credentials' and change nothing. Not loading afterwards.
     */
    method Login(email: string, password: string, now: string, createdAt: string) returns (r: LoginResult)
      modifies this, storage
      ensures !isLoading
      ensures r.success <==> email != "" && password != ""
      ensures r.success ==> user == Some(MockUser(email, createdAt)) && token == Some(TokenPrefix + now)
      ensures r.success ==> storage.entries == old(storage.entries)[TokenKey := TokenPrefix + now]
      ensures r.success ==> IsLoggedIn() && user.value.email == email && StartsWith(token.value, TokenPrefix)
      ensures !r.success ==> r.error == Some("Invalid credentials")
      ensures !r.success ==> user == old(user) && token == old(token) && storage.entries == old(storage.entries)
    {
      isLoading := true;
      if email != "" && password != "" {
        user := Some(MockUser(email, createdAt));
        token := Some(TokenPrefix + now);
        storage.SetItem(TokenKey, TokenPrefix + now);
        r := LoginResult(true, None);
      } else {
        r := LoginResult(false, Some("Invalid credentials"));
      }
      isLoading := false;
    }

    /** logout: no user, no token, and the stored token removed. */
    method Logout()
      modifies this, storage
      ensures user == None && token == None && !IsLoggedIn()
      ensures storage.entries == old(storage.entries) - {TokenKey}
      ensures isLoading == old(isLoading)
    {
      user := None;
      token := None;
      storage.RemoveItem(TokenKey);
    }

    /** initializeAuth: a stored non-empty token is taken over together with the mock user. */
    method InitializeAuth(createdAt: string)
      modifies this
      ensures (storage.GetItem(TokenKey).Some? && storage.GetItem(TokenKey).value != "") ==>
        token == storage.GetItem(TokenKey) && user == Some(MockUser("test@example.com", createdAt)) && IsLoggedIn()
      ensures !(storage.GetItem(TokenKey).Some? && storage.GetItem(TokenKey).value != "") ==>
        token == old(token) && user == old(user)
      ensures isLoading == old(isLoading)
    {
      var savedToken := storage.GetItem(TokenKey);
      if savedToken.Some? && savedToken.value != "" {
        token := savedToken;
        user := Some(MockUser("test@example.com", createdAt));
      }
    }

    /** verifyToken: a token with the mock prefix keeps the session with the mock user; any other logs out. */
    method VerifyToken(authToken: string, createdAt: string)
      modifies this, storage
      ensures StartsWith(authToken, TokenPrefix) ==>
        user == Some(MockUser("test@example.com", createdAt)) && token == old(token)
        && storage.entries == old(storage.entries)
      ensures !StartsWith(authToken, TokenPrefix) ==>
        user == None && token == None && storage.entries == old(storage.entries) - {TokenKey}
      ensures isLoading == old(isLoading)
    {
      if authToken != "" && StartsWith(authToken, TokenPrefix) {
        user := Some(MockUser("test@example.com", createdAt));
      } else {
        Logout();
      }
    }

    /** $reset: the same as logout. */
    method Reset()
      modifies this, storage
      ensures user == None && token == None
      ensures storage.entries == old(storage.entries) - {TokenKey}
      ensures isLoading == old(isLoading)
    {
      Logout();
    }
  }

  /** After a successful login, a store created afresh on the same storage (a reload) restores the session. */
  method LoginThenReload(store: AuthStore, email: string, password: string, now: string, createdAt: string)
    returns (r: LoginResult, reloaded: AuthStore)
    requires email != "" && password != ""
    modifies store, store.storage
    ensures r.success && reloaded.IsLoggedIn() && reloaded.token == Some(TokenPrefix + now)
  {
    r := store.Login(email, password, now, createdAt);
    reloaded := new AuthStore(store.storage);
    reloaded.InitializeAuth(createdAt);
  }
}
