/**
 * The auth slice: the state rehydrated from storage when the client starts,
 * the reducer, and what the register / login thunks dispatch.  Storage is
 * `localStorage` as a map from key to stored string.
 */
module Auth {
  import opened Common
  import opened Actions
  import UserJson

  datatype AuthState = AuthState(
    user: Option<User>,
    token: Option<string>,
    isAuthenticated: bool,
    isLoading: bool,
    error: Option<string>)

  type Storage = map<string, string>

  const TokenKey: string := "token"
  const UserKey: string := "user"

  const RegistrationFailed: string := "Registration failed"
  const LoginFailed: string := "Login failed"

  /** `localStorage.getItem(key)`: the stored string, or null. */
  function GetItem(storage: Storage, key: string): Option<string> {
    if key in storage then Some(storage[key]) else None
  }

  /** JavaScript truthiness of a stored value: present and not the empty string. */
  predicate Truthy(v: Option<string>) {
    v.Some? && v.value != ""
  }

  /** The user kept in storage: the parsed "user" entry when it is truthy, otherwise none. */
  function StoredUser(storage: Storage): Option<User> {
    var stored := GetItem(storage, UserKey);
    if Truthy(stored) then UserJson.Parse(stored.value) else None
  }

  /**
   * The `initialState` of the slice, read from storage when the module loads.
   * `None` where the stored user text is truthy but not in the layout
   * `UserJson.Serialize` writes; the store is then not built.
   */
  function Rehydrate(storage: Storage): Option<AuthState> {
    var token := GetItem(storage, TokenKey);
    var stored := GetItem(storage, UserKey);
    if Truthy(stored) && UserJson.Parse(stored.value).None? then None
    else Some(AuthState(
      StoredUser(storage),
      token,
      Truthy(token),
      false,
      None))
  }

  /** The reducer. */
  function AuthReduce(s: AuthState, a: Action): AuthState {
    match a
    case SetUser(u, t) => s.(user := Some(u), token := t, isLoading := false, isAuthenticated := true)
    case Logout => s.(user := None, token := None, isAuthenticated := false)
    case SetLoading => s.(isLoading := true, error := None)
    case SetError(m) => s.(isLoading := false, error := Some(m))
    case _ => s
  }

  /** The session flag agrees with the presence of a token. */
  predicate Consistent(s: AuthState) {
    s.isAuthenticated == s.token.Some?
  }

  /** Every SET_USER among the actions carries a token. */
  predicate TokensCarried(acts: seq<Action>) {
    forall i :: 0 <= i < |acts| && acts[i].SetUser? ==> acts[i].token.Some?
  }

  /** `error.message || fallback`: an empty message falls back to the fixed text. */
  function ErrorText(message: string, fallback: string): (r: string)
    ensures message != "" ==> r == message
    ensures message == "" ==> r == fallback
    ensures fallback != "" ==> r != ""
  {
    if message == "" then fallback else message
  }

  /** `registerUserThunk` / `loginUserThunk`: SET_LOADING, then the session or the error. */
  function SignInActions(o: Outcome<Session>, fallback: string): seq<Action> {
    [SetLoading,
     match o
     case Ok(session) => SetUser(session.user, Some(session.token))
     case Err(m) => SetError(ErrorText(m, fallback))]
  }

  // ---------------------------------------------------------------------

  /**
   * Rehydration: the token is the stored one; the session counts as
   * authenticated exactly when that token is truthy; the user is the parsed
   * stored user or null; not loading and no error.
   */
  lemma RehydrateFields(storage: Storage)
    requires Rehydrate(storage).Some?
    ensures var r := Rehydrate(storage).value;
      && r.token == GetItem(storage, TokenKey)
      && (r.isAuthenticated <==> TokenKey in storage && storage[TokenKey] != "")
      && (r.user.Some? <==> UserKey in storage && storage[UserKey] != "")
      && (r.user.Some? ==> r.user == UserJson.Parse(storage[UserKey]))
      && !r.isLoading && r.error == None
  {
  }

  /** Empty storage starts an anonymous session. */
  lemma RehydrateEmpty()
    ensures Rehydrate(map[]) == Some(AuthState(None, None, false, false, None))
  {
  }

  /**
   * What a successful sign-in writes to storage is read back as the same user
   * and token.  The session counts as authenticated after a reload only when
   * the token is not "", although SET_USER marked it authenticated in memory
   * whatever the token.
   */
  lemma RehydrateAfterSignIn(storage: Storage, session: Session)
    ensures Rehydrate(storage[TokenKey := session.token][UserKey := UserJson.Serialize(session.user)])
      == Some(AuthState(Some(session.user), Some(session.token), session.token != "", false, None))
  {
    UserJson.RoundTrip(session.user);
    UserJson.SerializeNonEmpty(session.user);
  }

  /** After a successful logout removes both keys, the next start is anonymous. */
  lemma RehydrateAfterLogout(storage: Storage)
    ensures Rehydrate(storage - {TokenKey, UserKey}) == Some(AuthState(None, None, false, false, None))
  {
  }

  /**
   * A stored empty token is kept as the token but does not authenticate:
   * the rehydrated state is the one place the flag and the token disagree.
   */
  lemma RehydrateEmptyToken()
    ensures var r := Rehydrate(map[TokenKey := ""]);
      r.Some? && r.value.token == Some("") && !r.value.isAuthenticated && !Consistent(r.value)
  {
  }

  /** Rehydration is consistent unless the stored token is the empty string. */
  lemma RehydrateConsistent(storage: Storage)
    requires Rehydrate(storage).Some?
    ensures Consistent(Rehydrate(storage).value) <==> !(TokenKey in storage && storage[TokenKey] == "")
  {
  }

  /** SET_USER signs in and ends loading; the error stays as it was. */
  lemma SetUserEffect(s: AuthState, u: User, t: Option<string>)
    ensures AuthReduce(s, SetUser(u, t)) == AuthState(Some(u), t, true, false, s.error)
  {
  }

  /** LOGOUT drops user and token; loading and error stay as they were. */
  lemma LogoutEffect(s: AuthState)
    ensures AuthReduce(s, Logout) == AuthState(None, None, false, s.isLoading, s.error)
  {
  }

  /** SET_LOADING and SET_ERROR touch only the loading flag and the error. */
  lemma LoadingAndErrorEffect(s: AuthState, m: string)
    ensures AuthReduce(s, SetLoading) == s.(isLoading := true, error := None)
    ensures AuthReduce(s, SetError(m)) == s.(isLoading := false, error := Some(m))
  {
  }

  /** One action keeps the flag consistent with the token, provided a SET_USER carries a token. */
  lemma ReducePreservesConsistent(s: AuthState, a: Action)
    requires Consistent(s)
    requires a.SetUser? ==> a.token.Some?
    ensures Consistent(AuthReduce(s, a))
    ensures WellFormed(a) && !(a.SetUser? || a.Logout? || a.SetLoading? || a.SetError?) ==> AuthReduce(s, a) == s
  {
  }

  /** A SET_USER without a token breaks the agreement. */
  lemma SetUserWithoutToken(s: AuthState, u: User)
    ensures !Consistent(AuthReduce(s, SetUser(u, None)))
  {
  }

  /** Any run of actions whose SET_USERs carry tokens keeps the flag consistent with the token. */
  lemma {:induction false} RunPreservesConsistent(s: AuthState, acts: seq<Action>)
    requires Consistent(s)
    requires TokensCarried(acts)
    ensures Consistent(Run(AuthReduce, s, acts))
    decreases |acts|
  {
    if acts != [] {
      ReducePreservesConsistent(s, acts[0]);
      assert TokensCarried(acts[1..]) by {
        forall i | 0 <= i < |acts[1..]| && acts[1..][i].SetUser? ensures acts[1..][i].token.Some? {
          assert acts[1..][i] == acts[i + 1];
        }
      }
      RunPreservesConsistent(AuthReduce(s, acts[0]), acts[1..]);
    }
  }

  /**
   * Sign-in: on success the session is the response's user and token,
   * authenticated, not loading, with no error; on failure the error is the
   * message or the fallback, loading ends, and the session is as before.
   */
  lemma SignInEffect(s: AuthState, o: Outcome<Session>, fallback: string)
    requires fallback != ""
    ensures TokensCarried(SignInActions(o, fallback))
    ensures var r := Run(AuthReduce, s, SignInActions(o, fallback));
      && !r.isLoading
      && (o.Ok? ==> r == AuthState(Some(o.value.user), Some(o.value.token), true, false, None))
      && (o.Err? ==> r == s.(isLoading := false, error := Some(ErrorText(o.message, fallback)))
                     && r.error.value != "")
  {
    var acts := SignInActions(o, fallback);
    RunTwo(AuthReduce, s, acts[0], acts[1]);
  }
}
