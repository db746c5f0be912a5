/**
 * The client's session: the authentication state shared with the screens, the token kept in
 * the browser's local storage, and the login flow that exchanges credentials for a token.
 * The login request's answer and the effect's cancellation are parameters.
 */
module AuthSession {
  import opened Common

  /** The authentication state; `None` stands for JavaScript's `null` and `undefined`. */
  datatype AuthState = AuthState(
    authenticationError: Option<string>,
    isAuthenticated: bool,
    isAuthenticating: bool,
    pendingAuthentication: bool,
    username: Option<string>,
    password: Option<string>,
    token: string)

  const InitialAuthState := AuthState(None, false, false, false, None, None, "")

  /** What the login request answered: a token, or a thrown error. */
  datatype LoginReply = Token(token: string) | LoginError(message: string)

  /** `v || ''`: the token a stored value stands for. */
  function TokenOf(v: Option<string>): (t: string)
    ensures t != "" <==> Truthy(v)
    ensures Truthy(v) ==> t == v.value
  {
    if Truthy(v) then v.value else ""
  }

  class AuthProvider {
    /** The provider's React state. */
    var state: AuthState
    /** `localStorage.getItem("token")`. */
    var storedToken: Option<string>

    /** The session is authenticated exactly when it holds a token. */
    ghost predicate Consistent()
      reads this
    {
      state.isAuthenticated <==> state.token != ""
    }

    /** The session's token is the one in local storage. */
    ghost predicate MatchesStorage()
      reads this
    {
      state.token == TokenOf(storedToken)
    }

    /** The first render, before any effect: the initial state over whatever storage holds. */
    constructor (stored: Option<string>)
      ensures state == InitialAuthState && storedToken == stored
      ensures Consistent()
    {
      state := InitialAuthState;
      storedToken := stored;
    }

    /** The mount effect: a truthy stored token restores an authenticated session. */
    method Mount()
      modifies this`state
      ensures Truthy(storedToken) ==> state == old(state).(token := storedToken.value, isAuthenticated := true)
      ensures !Truthy(storedToken) ==> state == old(state)
      ensures old(Consistent()) ==> Consistent()
      ensures old(state) == InitialAuthState ==> MatchesStorage()
    {
      if Truthy(storedToken) {
        state := state.(token := storedToken.value, isAuthenticated := true);
      }
    }

    /** The `storage` event handler: another tab changed local storage; a change of `token`
        replaces the session's token and authentication. */
    method OnStorageEvent(key: string, newValue: Option<string>)
      modifies this
      ensures key == "token" ==>
        && storedToken == newValue
        && state == old(state).(token := TokenOf(newValue), isAuthenticated := Truthy(newValue))
        && Consistent() && MatchesStorage()
      ensures key != "token" ==> state == old(state) && storedToken == old(storedToken)
    {
      if key == "token" {
        storedToken := newValue;
        state := state.(token := TokenOf(newValue), isAuthenticated := Truthy(newValue));
      }
    }

    /** `logout`: forget the stored token and return to the initial state. */
    method Logout()
      modifies this
      ensures storedToken.None? && state == InitialAuthState
      ensures Consistent() && MatchesStorage()
    {
      storedToken := None;
      state := InitialAuthState;
    }

    /** `login`: ask for authentication with these credentials, keeping the rest of the state. */
    method Login(username: Option<string>, password: Option<string>)
      modifies this`state
      ensures state == old(state).(pendingAuthentication := true, username := username, password := password)
      ensures state.token == old(state.token) && state.isAuthenticated == old(state.isAuthenticated)
      ensures old(Consistent()) ==> Consistent()
      ensures old(MatchesStorage()) ==> MatchesStorage()
    {
      state := state.(pendingAuthentication := true, username := username, password := password);
    }

    /** The authentication effect, run when `pendingAuthentication` changes. With a request
        pending it marks the session as authenticating and sends the credentials; an answer
        that arrives after the effect was cancelled is ignored. Both outcomes spread the state
        of the render that started the effect, so a success keeps its old error. */
    method Authenticate(reply: LoginReply, canceled: bool) returns (sent: Option<(Option<string>, Option<string>)>)
      modifies this
      ensures !old(state.pendingAuthentication) ==>
        sent.None? && state == old(state) && storedToken == old(storedToken)
      ensures old(state.pendingAuthentication) ==> sent == Some((old(state.username), old(state.password)))
      ensures old(state.pendingAuthentication) && canceled ==>
        state == old(state).(isAuthenticating := true) && storedToken == old(storedToken)
      ensures old(state.pendingAuthentication) && !canceled && reply.Token? ==>
        && storedToken == Some(reply.token)
        && state == old(state).(token := reply.token, pendingAuthentication := false,
                                isAuthenticated := true, isAuthenticating := false)
        && MatchesStorage()
      ensures old(state.pendingAuthentication) && !canceled && reply.LoginError? ==>
        && storedToken == old(storedToken)
        && state == old(state).(authenticationError := Some(reply.message), pendingAuthentication := false,
                                isAuthenticating := false)
      ensures old(Consistent()) && (reply.Token? ==> reply.token != "") ==> Consistent()
    {
      if !state.pendingAuthentication {
        return None;
      }
      var started := state;
      state := started.(isAuthenticating := true);
      sent := Some((started.username, started.password));
      if canceled {
        return;
      }
      match reply
      case Token(token) =>
        storedToken := Some(token);
        state := started.(token := token, pendingAuthentication := false, isAuthenticated := true,
                          isAuthenticating := false);
      case LoginError(message) =>
        state := started.(authenticationError := Some(message), pendingAuthentication := false,
                          isAuthenticating := false);
    }
  }
}
