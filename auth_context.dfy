/**
 * The authentication state of the browser app
 * (frontend/src/context/AuthContext.jsx): the reducer, its initial state,
 * and the session decision made on mount from the stored token and user.
 * The login, logout and profile calls around it (network and localStorage)
 * are not part of this model; only the actions they dispatch are.
 */
module AuthContext {
  import opened Wrappers

  /** A user object, field name to value. */
  type User = map<string, string>

  datatype AuthState = AuthState(isAuthenticated: bool, user: Option<User>, token: Option<string>, loading: bool)

  datatype Action =
    | LoginSuccess(payloadUser: Option<User>, payloadToken: Option<string>)
    | LoginFailure
    | Logout
    | SetLoading(payload: bool)
    | UpdateUser(fields: User)
    | Unknown(actionType: string)

  /** `initialState`. */
  const Initial := AuthState(false, None, None, true)

  /** The signed-out state LOGIN_FAILURE and LOGOUT produce. */
  const SignedOut := AuthState(false, None, None, false)

  /** `authReducer`. UPDATE_USER spreads the old user (nothing when null) and then the payload. */
  function Reduce(state: AuthState, action: Action): AuthState {
    match action
    case LoginSuccess(u, t) => state.(isAuthenticated := true, user := u, token := t, loading := false)
    case LoginFailure => state.(isAuthenticated := false, user := None, token := None, loading := false)
    case Logout => state.(isAuthenticated := false, user := None, token := None, loading := false)
    case SetLoading(b) => state.(loading := b)
    case UpdateUser(fields) => state.(user := Some(state.user.GetOr(map[]) + fields))
    case Unknown(_) => state
  }

  /** The state after dispatching the actions in order. */
  function Run(state: AuthState, actions: seq<Action>): AuthState
    decreases |actions|
  {
    if actions == [] then state else Run(Reduce(state, actions[0]), actions[1..])
  }

  /** The effect of each action on the state, field by field. */
  lemma ReduceEffects(state: AuthState, action: Action)
    ensures action.LoginSuccess? ==>
              Reduce(state, action) == AuthState(true, action.payloadUser, action.payloadToken, false)
    ensures action.LoginFailure? || action.Logout? ==> Reduce(state, action) == SignedOut
    ensures action.SetLoading? ==> Reduce(state, action) == state.(loading := action.payload)
    ensures action.UpdateUser? ==>
              && Reduce(state, action).user.Some?
              && (forall f :: f in action.fields ==> Reduce(state, action).user.value[f] == action.fields[f])
              && (forall f :: state.user.Some? && f in state.user.value && f !in action.fields ==>
                    f in Reduce(state, action).user.value && Reduce(state, action).user.value[f] == state.user.value[f])
              && Reduce(state, action).user.value.Keys == state.user.GetOr(map[]).Keys + action.fields.Keys
              && Reduce(state, action).(user := state.user) == state
    ensures action.Unknown? ==> Reduce(state, action) == state
  {
  }

  /** Signed out means no token. */
  ghost predicate Coherent(state: AuthState) {
    !state.isAuthenticated ==> state.token.None?
  }

  /** Whatever is dispatched from the initial state, a signed-out state holds no token. */
  lemma {:induction false} RunKeepsCoherent(state: AuthState, actions: seq<Action>)
    requires Coherent(state)
    ensures Coherent(Run(state, actions))
    decreases |actions|
  {
    if actions != [] {
      RunKeepsCoherent(Reduce(state, actions[0]), actions[1..]);
    }
  }

  lemma FromInitialCoherent(actions: seq<Action>)
    ensures Coherent(Run(Initial, actions))
  {
    RunKeepsCoherent(Initial, actions);
  }

  /**
   * UPDATE_USER does not check the session: dispatched while signed out it
   * leaves a user object in a signed-out state.
   */
  lemma UpdateUserWhileSignedOut(fields: User)
    ensures var after := Reduce(SignedOut, UpdateUser(fields));
            !after.isAuthenticated && after.user == Some(fields)
  {
    assert map[] + fields == fields;
  }

  /** The action `checkAuth` dispatches for the stored token (null as None) and user. */
  function SessionAction(storedToken: Option<string>, storedUser: Option<User>): Action {
    if storedToken.Some? && storedToken.value != "" && storedUser.Some?
    then LoginSuccess(storedUser, storedToken)
    else SetLoading(false)
  }

  /**
   * On mount the session is restored exactly when a non-empty token and a
   * user are stored; either way loading ends.
   */
  lemma SessionRestoredIff(storedToken: Option<string>, storedUser: Option<User>)
    ensures var after := Reduce(Initial, SessionAction(storedToken, storedUser));
            && (after.isAuthenticated <==> storedToken.Some? && storedToken.value != "" && storedUser.Some?)
            && !after.loading
            && (after.isAuthenticated ==> after.token == storedToken && after.user == storedUser)
            && (!after.isAuthenticated ==> after == SignedOut)
  {
  }
}
