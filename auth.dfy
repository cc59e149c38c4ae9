/**
 * The authentication composables (src/composables/useAuth.ts): how the
 * server's login, logout and refresh results are classified, the mock
 * used in development, and the token manager over `localStorage`. Clock
 * readings and the base64 text of the email are parameters.
 */
module Auth {
  import opened Wrappers
  import opened Text
  import opened Types
  import opened Browser

  /** The data a login or refresh returns. */
  datatype LoginResponse = LoginResponse(user: User, token: string, refreshToken: Option<string>)

  datatype LogoutResponse = LogoutResponse(success: bool, message: Option<string>, errors: Option<seq<ApiError>>)

  /** The `data.login` (or `data.refreshToken`) payload, with every field possibly missing. */
  datatype TokenPayload = TokenPayload(
    user: Option<User>, token: Option<string>, refreshToken: Option<string>, errors: Option<seq<ApiError>>)

  /** A mutation that threw carries the GraphQL error messages and whether the network failed. */
  datatype Thrown = Thrown(graphQLErrors: seq<string>, networkError: bool)

  datatype TokenOutcome = TokenThrew(error: Thrown) | TokenReturned(payload: Option<TokenPayload>)

  /** The payload has a non-empty error list. */
  predicate HasErrors(errors: Option<seq<ApiError>>) {
    errors.Some? && |errors.value| > 0
  }

  /** `user && token`: both present, the token non-empty. */
  predicate Complete(p: TokenPayload) {
    p.user.Some? && p.token.Some? && p.token.value != ""
  }

  const InvalidServerResponse := "Invalid response from server"
  const NetworkUnreachable := "Network error - unable to connect to server"
  const UnexpectedLoginError := "An unexpected error occurred during login"

  /** login: errors first, then a complete answer, then 'Invalid response from server'; thrown errors by kind. */
  function ClassifyLogin(outcome: TokenOutcome): (r: MutationResponse<LoginResponse>)
    ensures r.success <==> (outcome.TokenReturned? && outcome.payload.Some?
      && !HasErrors(outcome.payload.value.errors) && Complete(outcome.payload.value))
    ensures r.success ==> r.data == Some(LoginResponse(outcome.payload.value.user.value,
      outcome.payload.value.token.value, outcome.payload.value.refreshToken))
    ensures (outcome.TokenReturned? && outcome.payload.Some? && HasErrors(outcome.payload.value.errors)) ==>
      r.errors == outcome.payload.value.errors
      && r.message == Some(if outcome.payload.value.errors.value[0].message != "" then outcome.payload.value.errors.value[0].message
                           else "Login failed with validation errors")
    ensures (outcome.TokenReturned? && !(outcome.payload.Some? && HasErrors(outcome.payload.value.errors))
             && !(outcome.payload.Some? && Complete(outcome.payload.value))) ==>
      r == Failure(OneError(InvalidServerResponse), "Login failed - invalid server response")
    ensures r.success ==> r.message == Some("Login successful")
    ensures outcome.TokenThrew? && |outcome.error.graphQLErrors| > 0 ==>
      r == Failure(ErrorsOf(outcome.error.graphQLErrors), outcome.error.graphQLErrors[0])
    ensures outcome.TokenThrew? && |outcome.error.graphQLErrors| == 0 && outcome.error.networkError ==>
      r == Failure(OneError(NetworkUnreachable), "Connection failed. Please check your internet connection.")
    ensures outcome.TokenThrew? && |outcome.error.graphQLErrors| == 0 && !outcome.error.networkError ==>
      r == Failure(OneError(UnexpectedLoginError), "Login failed. Please try again.")
    ensures r.errors.Some? ==> |r.errors.value| > 0
  {
    match outcome
    case TokenReturned(payload) =>
      if payload.Some? && HasErrors(payload.value.errors) then
        var errors := payload.value.errors.value;
        MutationResponse(false, None, Some(errors),
          Some(if errors[0].message != "" then errors[0].message else "Login failed with validation errors"))
      else if payload.Some? && Complete(payload.value) then
        MutationResponse(true, Some(LoginResponse(payload.value.user.value, payload.value.token.value,
          payload.value.refreshToken)), None, Some("Login successful"))
      else Failure(OneError(InvalidServerResponse), "Login failed - invalid server response")
    case TokenThrew(e) =>
      if |e.graphQLErrors| > 0 then
        Failure(ErrorsOf(e.graphQLErrors), e.graphQLErrors[0])
      else if e.networkError then
        Failure(OneError(NetworkUnreachable), "Connection failed. Please check your internet connection.")
      else Failure(OneError(UnexpectedLoginError), "Login failed. Please try again.")
  }

  /** GraphQL errors take precedence over a network error when login throws. */
  lemma LoginThrownPrecedence(messages: seq<string>, networkError: bool)
    requires |messages| > 0
    ensures ClassifyLogin(TokenThrew(Thrown(messages, networkError))).message == Some(messages[0])
    ensures ClassifyLogin(TokenThrew(Thrown(messages, networkError))).errors == Some(ErrorsOf(messages))
  {
  }

  /**
   * What the logout call produced: it threw, its result had no `data`
   * (reading `data.logout` then throws as well), or `data.logout`, which
   * may be null.
   */
  datatype LogoutOutcome = LogoutThrew | NoData | LogoutReturned(payload: Option<LogoutResponse>)

  /** logout: fails only on a payload with errors; anything that throws still counts as logged out locally. */
  function ClassifyLogout(outcome: LogoutOutcome): (r: MutationResponse<LogoutResponse>)
    ensures !r.success <==> outcome.LogoutReturned? && outcome.payload.Some? && HasErrors(outcome.payload.value.errors)
    ensures outcome.LogoutThrew? || outcome.NoData? ==>
      r == MutationResponse(true, None, None, Some("Logged out locally (server logout may have failed)"))
    ensures outcome.LogoutReturned? && r.success ==> r.data == outcome.payload
    ensures outcome.LogoutReturned? && !r.success ==> r == Failure(outcome.payload.value.errors.value, "Logout failed")
    ensures outcome.LogoutReturned? && r.success ==>
      r.message == Some(if outcome.payload.Some? && outcome.payload.value.message.Some?
                           && outcome.payload.value.message.value != ""
                        then outcome.payload.value.message.value else "Logout successful")
  {
    match outcome
    case LogoutReturned(payload) =>
      if payload.Some? && HasErrors(payload.value.errors) then
        Failure(payload.value.errors.value, "Logout failed")
      else
        var message := if payload.Some? && payload.value.message.Some? && payload.value.message.value != ""
                       then payload.value.message.value else "Logout successful";
        MutationResponse(true, payload, None, Some(message))
    case _ => MutationResponse(true, None, None, Some("Logged out locally (server logout may have failed)"))
  }

  const InvalidRefreshResponse := "Invalid refresh token response"

  /** refreshToken: errors, then a token with a user, then 'Invalid refresh token response'; a throw means the session expired. */
  function ClassifyRefresh(outcome: TokenOutcome): (r: MutationResponse<LoginResponse>)
    ensures r.success <==> (outcome.TokenReturned? && outcome.payload.Some?
      && !HasErrors(outcome.payload.value.errors) && Complete(outcome.payload.value))
    ensures r.success ==> r.data == Some(LoginResponse(outcome.payload.value.user.value,
      outcome.payload.value.token.value, outcome.payload.value.refreshToken))
    ensures outcome.TokenThrew? ==> r == Failure(OneError("Token refresh failed"), "Authentication expired. Please log in again.")
    ensures !r.success && outcome.TokenReturned? ==> r.message == Some("Token refresh failed")
    ensures (outcome.TokenReturned? && outcome.payload.Some? && HasErrors(outcome.payload.value.errors)) ==>
      r == Failure(outcome.payload.value.errors.value, "Token refresh failed")
    ensures (outcome.TokenReturned? && !(outcome.payload.Some? && HasErrors(outcome.payload.value.errors))
             && !(outcome.payload.Some? && Complete(outcome.payload.value))) ==>
      r == Failure(OneError(InvalidRefreshResponse), "Token refresh failed")
    ensures r.success ==> r.message == Some("Token refreshed successfully")
  {
    match outcome
    case TokenReturned(payload) =>
      if payload.Some? && HasErrors(payload.value.errors) then
        Failure(payload.value.errors.value, "Token refresh failed")
      else if payload.Some? && Complete(payload.value) then
        MutationResponse(true, Some(LoginResponse(payload.value.user.value, payload.value.token.value,
          payload.value.refreshToken)), None, Some("Token refreshed successfully"))
      else Failure(OneError(InvalidRefreshResponse), "Token refresh failed")
    case TokenThrew(_) => Failure(OneError("Token refresh failed"), "Authentication expired. Please log in again.")
  }

  // ---------------------------------------------------------------------
  // useMockAuth

  const RefreshPrefix := "mock-refresh-"

  /** The role and names the mock derives from the email; 'admin' is tested before 'staff'. */
  function MockIdentity(email: string): (r: (string, string, string))
    ensures r.0 == (if Includes(email, "admin") then "admin" else "staff")
    ensures Includes(email, "admin") ==> r.1 == "Admin" && r.2 == "User"
    ensures !Includes(email, "admin") && Includes(email, "staff") ==> r.1 == "Staff" && r.2 == "Member"
    ensures !Includes(email, "admin") && !Includes(email, "staff") ==> r.1 == "Demo" && r.2 == "User"
  {
    if Includes(email, "admin") then ("admin", "Admin", "User")
    else if Includes(email, "staff") then ("staff", "Staff", "Member")
    else ("staff", "Demo", "User")
  }

  /**
   * `btoa` accepts only Latin-1 text: a character above U+00FF makes it
   * throw.
   */
  predicate Latin1(s: string) {
    forall i :: 0 <= i < |s| ==> s[i] as int <= 0xFF
  }

  /** The user the mock signs in for an accepted email. */
  function MockUser(email: string, now: string, createdAt: string): (u: User)
    ensures u.email == email && u.role == MockIdentity(email).0
    ensures u.firstName == MockIdentity(email).1 && u.lastName == MockIdentity(email).2
  {
    var (role, firstName, lastName) := MockIdentity(email);
    User("user-" + now, firstName, lastName, email, role, createdAt)
  }

  /**
   * The mock login: any email with a password of at least six characters
   * is accepted, unless `btoa` throws on the email, which the catch turns
   * into 'Mock login error'. `now` is `Date.now()`, `createdAt` the ISO
   * time and `emailBase64` what `btoa(email)` gives for Latin-1 text.
   */
  function MockLogin(email: string, password: string, now: string, createdAt: string, emailBase64: string)
    : (r: MutationResponse<LoginResponse>)
    ensures r.success <==> email != "" && |password| >= 6 && Latin1(email)
    ensures r.success ==> r == MutationResponse(true,
      Some(LoginResponse(MockUser(email, now, createdAt), "mock-jwt-" + emailBase64 + "-" + now, Some(RefreshPrefix + now))),
      None, Some("Login successful"))
    ensures r.success ==> (r.data.Some? && r.data.value.user.email == email
      && r.data.value.refreshToken.Some? && StartsWith(r.data.value.refreshToken.value, RefreshPrefix))
    ensures r.success ==> r.data.value.user.role == (if Includes(email, "admin") then "admin" else "staff")
    ensures !(email != "" && |password| >= 6) ==>
      r == Failure(OneError("Invalid email or password"), "Please check your credentials and try again")
    ensures email != "" && |password| >= 6 && !Latin1(email) ==>
      r == Failure(OneError("Mock login error"), "Login simulation failed")
  {
    if email != "" && password != "" && |password| >= 6 then
      if !Latin1(email) then Failure(OneError("Mock login error"), "Login simulation failed")
      else
        MutationResponse(true, Some(LoginResponse(MockUser(email, now, createdAt), "mock-jwt-" + emailBase64 + "-" + now,
                                                  Some(RefreshPrefix + now))),
                         None, Some("Login successful"))
    else Failure(OneError("Invalid email or password"), "Please check your credentials and try again")
  }

  /** An email outside Latin-1, such as one with 'ł', fails the mock login however good the password. */
  lemma NonLatin1EmailFails(password: string, now: string, createdAt: string, emailBase64: string)
    requires |password| >= 6
    ensures !MockLogin("\U{142}@x.pl", password, now, createdAt, emailBase64).success
  {
    var email := "\U{142}@x.pl";
    assert email[0] as int > 0xFF;
  }

  /** The mock logout always succeeds. */
  function MockLogout(): (r: MutationResponse<LogoutResponse>)
    ensures r.success && r.data == Some(LogoutResponse(true, Some("Successfully logged out"), None))
  {
    MutationResponse(true, Some(LogoutResponse(true, Some("Successfully logged out"), None)), None, Some("Logout successful"))
  }

  /** The mock refresh accepts exactly the tokens that begin with 'mock-refresh-' and hands out a new one of that kind. */
  function MockRefresh(refreshToken: string, now: string, createdAt: string): (r: MutationResponse<LoginResponse>)
    ensures r.success <==> StartsWith(refreshToken, RefreshPrefix)
    ensures r.success ==> (r.data.Some? && r.data.value.refreshToken.Some?
      && StartsWith(r.data.value.refreshToken.value, RefreshPrefix))
    ensures !r.success ==> r == Failure(OneError("Invalid refresh token"), "Token refresh failed")
  {
    if refreshToken != "" && StartsWith(refreshToken, RefreshPrefix) then
      var user := User("user-refreshed", "Refreshed", "User", "refreshed@example.com", "admin", createdAt);
      var newRefresh := "mock-refresh-new-" + now;
      assert newRefresh[..|RefreshPrefix|] == RefreshPrefix;
      MutationResponse(true, Some(LoginResponse(user, "mock-jwt-refreshed-" + now, Some(newRefresh))),
                       None, Some("Token refreshed successfully"))
    else Failure(OneError("Invalid refresh token"), "Token refresh failed")
  }

  /** A successful mock login can be refreshed, and so can every refresh after it. */
  lemma LoginRefreshChain(email: string, password: string, t0: string, t1: string, t2: string,
                          createdAt: string, emailBase64: string)
    requires email != "" && |password| >= 6 && Latin1(email)
    ensures var login := MockLogin(email, password, t0, createdAt, emailBase64);
      var first := MockRefresh(login.data.value.refreshToken.value, t1, createdAt);
      first.success && MockRefresh(first.data.value.refreshToken.value, t2, createdAt).success
  {
  }

  // ---------------------------------------------------------------------
  // useTokenManager

  const ManagerTokenKey := "rails_pos_token"
  const ManagerRefreshKey := "rails_pos_refresh_token"
  const ManagerUserKey := "rails_pos_user"

  /** The token manager's view of `localStorage`; the user is kept as its JSON text. */
  class TokenManager {
    const storage: LocalStorage

    constructor (storage: LocalStorage)
      ensures this.storage == storage
    {
      this.storage := storage;
    }

    /** setTokens: the token is always written, the refresh token only when a non-empty one is given. */
    method SetTokens(token: string, refreshToken: Option<string>)
      modifies storage
      ensures refreshToken.Some? && refreshToken.value != "" ==>
        storage.entries == old(storage.entries)[ManagerTokenKey := token][ManagerRefreshKey := refreshToken.value]
      ensures !(refreshToken.Some? && refreshToken.value != "") ==>
        storage.entries == old(storage.entries)[ManagerTokenKey := token]
      ensures GetToken() == Some(token)
    {
      storage.SetItem(ManagerTokenKey, token);
      if refreshToken.Some? && refreshToken.value != "" {
        storage.SetItem(ManagerRefreshKey, refreshToken.value);
      }
    }

    /** setUser, with the user already serialised. */
    method SetUser(userJson: string)
      modifies storage
      ensures storage.entries == old(storage.entries)[ManagerUserKey := userJson]
      ensures userJson != "" ==> GetStoredUser() == Some(userJson)
      ensures GetToken() == old(GetToken()) && GetRefreshToken() == old(GetRefreshToken())
    {
      storage.SetItem(ManagerUserKey, userJson);
    }

    function GetToken(): Option<string>
      reads this, storage
    {
      storage.GetItem(ManagerTokenKey)
    }

    function GetRefreshToken(): Option<string>
      reads this, storage
    {
      storage.GetItem(ManagerRefreshKey)
    }

    /** getStoredUser: the stored JSON text when it is non-empty, null otherwise. */
    function GetStoredUser(): (r: Option<string>)
      reads this, storage
      ensures r.Some? <==> ManagerUserKey in storage.entries && storage.entries[ManagerUserKey] != ""
      ensures r.Some? ==> r.value == storage.entries[ManagerUserKey]
    {
      var text := storage.GetItem(ManagerUserKey);
      if text.Some? && text.value != "" then text else None
    }

    /** clearTokens: all three keys removed, every other entry kept. */
    method ClearTokens()
      modifies storage
      ensures storage.entries == old(storage.entries) - {ManagerTokenKey, ManagerRefreshKey, ManagerUserKey}
      ensures GetToken() == None && GetRefreshToken() == None && GetStoredUser() == None
    {
      storage.RemoveItem(ManagerTokenKey);
      storage.RemoveItem(ManagerRefreshKey);
      storage.RemoveItem(ManagerUserKey);
    }
  }
}
