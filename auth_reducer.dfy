/** The session slice of the store: `AuthState` and `authReducer`. */
module AuthReducer {
  import opened Wrappers
  import opened Types
  import opened Actions

  datatype AuthState = AuthState(
    token: Option<string>,
    user: Option<User>,
    isAuthenticated: bool,
    isLoading: bool,
    error: Option<string>)

  const InitialAuthState: AuthState := AuthState(None, None, false, false, None)

  /** `authReducer(state, action)`: an action of another slice falls to `default`. */
  function Reduce(s: AuthState, a: Action): (r: AuthState)
    ensures SliceOf(a) != AuthSlice ==> r == s
  {
    match a
    case AuthAct(action) => Step(s, action)
    case _ => s
  }

  /**
   * The branches of `authReducer`'s switch. Only a sign-in or a loaded user
   * authenticates, and only a sign-in brings a new token.
   */
  function Step(s: AuthState, a: AuthAction): (r: AuthState)
    ensures r.isAuthenticated && !s.isAuthenticated ==> a.LoginSuccess? || a.RegisterSuccess? || a.LoadUser?
    ensures r.token.Some? && r.token != s.token ==> a.LoginSuccess? || a.RegisterSuccess?
  {
    match a
    case LoginRequest | RegisterRequest =>
      s.(isLoading := true, error := None)
    case LoginSuccess(_, _) | RegisterSuccess(_, _) =>
      s.(isLoading := false, isAuthenticated := true, token := Some(a.token), user := Some(a.user), error := None)
    case LoginFailure(_) | RegisterFailure(_) | AuthError(_) =>
      s.(isLoading := false, isAuthenticated := false, token := None, user := None, error := Some(a.error))
    case LoadUser(user) =>
      s.(isAuthenticated := true, user := Some(user), isLoading := false)
    case CompleteOnboarding =>
      s.(user := if s.user.Some? then Some(s.user.value.(isOnboarded := true)) else None)
    case Logout =>
      InitialAuthState
    case ClearError =>
      s.(error := None)
  }

  /** A successful login or registration authenticates with the payload's token and user. */
  lemma SignInEffect(s: AuthState, a: AuthAction)
    requires a.LoginSuccess? || a.RegisterSuccess?
    ensures var r := Step(s, a);
      r.isAuthenticated && !r.isLoading && r.token == Some(a.token) && r.user == Some(a.user) && r.error == None
  {
  }

  /** A failed login or registration, or an auth error, signs out and keeps the message. */
  lemma FailureSignsOut(s: AuthState, a: AuthAction)
    requires a.LoginFailure? || a.RegisterFailure? || a.AuthError?
    ensures var r := Step(s, a);
      !r.isAuthenticated && !r.isLoading && r.token == None && r.user == None && r.error == Some(a.error)
  {
  }

  /** Logging out returns the initial state from any state, so it is idempotent. */
  lemma LogoutResets(s: AuthState)
    ensures Step(s, Logout) == InitialAuthState
    ensures Step(Step(s, Logout), Logout) == Step(s, Logout)
  {
  }

  /**
   * Completing onboarding marks the signed-in user onboarded, leaves an
   * absent user absent and changes nothing else; it is idempotent.
   */
  lemma CompleteOnboardingEffect(s: AuthState)
    ensures var r := Step(s, CompleteOnboarding);
      && r.user.Some? == s.user.Some?
      && (r.user.Some? ==> r.user.value == s.user.value.(isOnboarded := true))
      && r.(user := s.user) == s
    ensures Step(Step(s, CompleteOnboarding), CompleteOnboarding) == Step(s, CompleteOnboarding)
  {
  }

  /** Clearing the error changes nothing else. */
  lemma ClearErrorOnly(s: AuthState)
    ensures Step(s, ClearError).(error := s.error) == s
    ensures Step(s, ClearError).error == None
  {
  }

  /** The session is authenticated exactly when a user is present. */
  predicate Consistent(s: AuthState)
  {
    s.isAuthenticated <==> s.user.Some?
  }

  /** Every action of the store keeps a consistent session consistent. */
  lemma ConsistentPreserved(s: AuthState, a: Action)
    requires Consistent(s)
    ensures Consistent(Reduce(s, a))
  {
  }

  /** The session after dispatching `actions` in order from `s`. */
  function Run(s: AuthState, actions: seq<Action>): AuthState
    decreases |actions|
  {
    if actions == [] then s else Run(Reduce(s, actions[0]), actions[1..])
  }

  /** Every session the store can reach from its initial state is consistent. */
  lemma {:induction false} ReachableConsistent(s: AuthState, actions: seq<Action>)
    requires Consistent(s)
    ensures Consistent(Run(s, actions))
    decreases |actions|
  {
    if actions != [] {
      ConsistentPreserved(s, actions[0]);
      ReachableConsistent(Reduce(s, actions[0]), actions[1..]);
    }
  }

  lemma InitialConsistent()
    ensures Consistent(InitialAuthState)
    ensures !InitialAuthState.isAuthenticated && InitialAuthState.token == None
  {
  }
}
