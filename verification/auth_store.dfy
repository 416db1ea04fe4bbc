/** The client-side authentication store: who is signed in, with which token,
    and the loading and error flags, plus the projection of it that is
    persisted across page loads. */
module AuthStore {
  import opened Wrappers

  datatype User = User(id: string, email: string, name: string)

  /** The body of a successful login, registration or OAuth exchange. */
  datatype AuthResponse = AuthResponse(user: User, token: string)

  /** The whole store state, as `partialize` receives it. */
  datatype AuthState = AuthState(user: Option<User>, token: Option<string>, isAuthenticated: bool,
                                 isLoading: bool, error: Option<string>)

  /** The persisted snapshot: it has no field for `isLoading` or `error`. */
  datatype Persisted = Persisted(user: Option<User>, token: Option<string>, isAuthenticated: bool)

  const LoginFailed := "Login failed"
  const RegisterFailed := "Registration failed"
  const OAuthFailed := "OAuth authentication failed"

  /** `partialize`: keeps user, token and the signed-in flag. */
  function Partialize(st: AuthState): (p: Persisted)
    ensures p.user == st.user && p.token == st.token && p.isAuthenticated == st.isAuthenticated
  {
    Persisted(st.user, st.token, st.isAuthenticated)
  }

  /** The snapshot does not depend on the transient fields. */
  lemma PartializeIgnoresTransient(st: AuthState, loading: bool, error: Option<string>)
    ensures Partialize(st.(isLoading := loading, error := error)) == Partialize(st)
  {
  }

  /** Signed in exactly when a token is held. */
  predicate Consistent(st: AuthState) {
    st.isAuthenticated <==> st.token.Some?
  }

  class Store {
    var user: Option<User>
    var token: Option<string>
    var isAuthenticated: bool
    var isLoading: bool
    var error: Option<string>

    function State(): AuthState
      reads this
    {
      AuthState(user, token, isAuthenticated, isLoading, error)
    }

    constructor()
      ensures State() == AuthState(None, None, false, false, None)
      ensures Consistent(State())
    {
      user := None;
      token := None;
      isAuthenticated := false;
      isLoading := false;
      error := None;
    }

    /** `set({ isLoading: true, error: null })`, the first step of every
        remote action. */
    method BeginRequest()
      modifies this
      ensures State() == old(State()).(isLoading := true, error := None)
    {
      isLoading := true;
      error := None;
    }

    /** The shared tail of login, register and the OAuth callback: on success
        take user and token from the response and mark the user signed in; on
        failure record the server's message or the action's fallback, leave
        the credentials alone, and rethrow. */
    method Settle(response: Outcome<AuthResponse>, fallback: string) returns (thrown: bool)
      modifies this
      ensures thrown == response.Failure?
      ensures response.Success? ==>
        State() == old(State()).(user := Some(response.value.user), token := Some(response.value.token),
                                 isAuthenticated := true, isLoading := false)
      ensures response.Failure? ==>
        State() == old(State()).(error := Some(OrElse(response.serverMessage, fallback)), isLoading := false)
      ensures Consistent(old(State())) ==> Consistent(State())
    {
      match response
      case Success(r) =>
        user := Some(r.user);
        token := Some(r.token);
        isAuthenticated := true;
        isLoading := false;
        thrown := false;
      case Failure(message) =>
        error := Some(OrElse(message, fallback));
        isLoading := false;
        thrown := true;
    }

    /** `login`. */
    method Login(response: Outcome<AuthResponse>) returns (thrown: bool)
      modifies this
      ensures thrown == response.Failure? && !isLoading
      ensures response.Success? ==> (user == Some(response.value.user) && token == Some(response.value.token)
                                     && isAuthenticated && error == None)
      ensures response.Failure? ==> (user == old(user) && token == old(token) && isAuthenticated == old(isAuthenticated)
                                     && error == Some(OrElse(response.serverMessage, LoginFailed)))
      ensures Consistent(old(State())) ==> Consistent(State())
    {
      BeginRequest();
      thrown := Settle(response, LoginFailed);
    }

    /** `register`. */
    method Register(response: Outcome<AuthResponse>) returns (thrown: bool)
      modifies this
      ensures thrown == response.Failure? && !isLoading
      ensures response.Success? ==> (user == Some(response.value.user) && token == Some(response.value.token)
                                     && isAuthenticated && error == None)
      ensures response.Failure? ==> (user == old(user) && token == old(token) && isAuthenticated == old(isAuthenticated)
                                     && error == Some(OrElse(response.serverMessage, RegisterFailed)))
      ensures Consistent(old(State())) ==> Consistent(State())
    {
      BeginRequest();
      thrown := Settle(response, RegisterFailed);
    }

    /** `handleOAuthCallback` for the one provider the client knows,
        'google'. */
    method HandleOAuthCallback(response: Outcome<AuthResponse>) returns (thrown: bool)
      modifies this
      ensures thrown == response.Failure? && !isLoading
      ensures response.Success? ==> (user == Some(response.value.user) && token == Some(response.value.token)
                                     && isAuthenticated && error == None)
      ensures response.Failure? ==> (user == old(user) && token == old(token) && isAuthenticated == old(isAuthenticated)
                                     && error == Some(OrElse(response.serverMessage, OAuthFailed)))
      ensures Consistent(old(State())) ==> Consistent(State())
    {
      BeginRequest();
      thrown := Settle(response, OAuthFailed);
    }

    /** `logout`: forgets user and token and clears the error; the loading
        flag is left as it is. */
    method Logout()
      modifies this
      ensures State() == AuthState(None, None, false, old(isLoading), None)
      ensures Consistent(State())
    {
      user := None;
      token := None;
      isAuthenticated := false;
      error := None;
    }

    method ClearError()
      modifies this
      ensures State() == old(State()).(error := None)
    {
      error := None;
    }

    method SetLoading(loading: bool)
      modifies this
      ensures State() == old(State()).(isLoading := loading)
    {
      isLoading := loading;
    }
  }
}
