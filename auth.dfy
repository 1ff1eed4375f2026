/** The auth slice: the session (user and bearer token) held in memory and mirrored in the browser's
    key-value storage, the status surface of login and registration, and the session restore the
    dashboard performs when it mounts. */
module Auth {
  import opened JsValues
  import opened Thunks

  /** The identity the server returns on login. */
  datatype User = User(id: string, name: string, email: string, role: string)

  /** JSON.stringify and JSON.parse of a user, left opaque; `decode` is None for text that does not
      parse to a user (JSON `null`, say). */
  datatype UserCodec = UserCodec(encode: User -> string, decode: string -> Option<User>)

  /** Parsing what was stringified gives the user back. */
  ghost predicate RoundTrips(c: UserCodec) {
    forall u :: c.decode(c.encode(u)) == Some(u)
  }

  const UserKey := "user"
  const TokenKey := "token"

  const LoginFailed := "Login failed"
  const RegisterFailed := "Register failed"

  /** The body of a successful `POST /auth/login`. */
  datatype LoginReply = LoginReply(user: User, token: string)

  /** `localStorage.getItem(key)`: the stored string, or None (JavaScript `null`) when the key is absent. */
  function GetItem(items: map<string, string>, key: string): (v: Option<string>)
    ensures v.Some? <==> key in items
    ensures v.Some? ==> v.value == items[key]
  {
    if key in items then Some(items[key]) else None
  }

  /** The browser's key-value storage. */
  class Storage {
    var items: map<string, string>

    constructor (items: map<string, string>)
      ensures this.items == items
    {
      this.items := items;
    }

    method Get(key: string) returns (v: Option<string>)
      ensures v == GetItem(items, key)
    {
      v := GetItem(items, key);
    }

    method SetItem(key: string, value: string)
      modifies this
      ensures items == old(items)[key := value]
    {
      items := items[key := value];
    }

    method RemoveItem(key: string)
      modifies this
      ensures items == old(items) - {key}
    {
      items := items - {key};
    }
  }

  datatype AuthState = AuthState(
    user: Option<User>,
    token: Option<string>,
    loading: bool,
    error: Option<string>,
    storage: map<string, string>)

  /** initialState, evaluated against what storage holds when the store is created:
      `JSON.parse(getItem("user")) || null` and `getItem("token") || null`. */
  function Initial(c: UserCodec, storage: map<string, string>): AuthState {
    AuthState(
      if UserKey in storage then c.decode(storage[UserKey]) else None,
      if Truthy(GetItem(storage, TokenKey)) then GetItem(storage, TokenKey) else None,
      false, None, storage)
  }

  /** setCredentials, logout and the phases of loginUser and registerUser. */
  datatype Action =
    | SetCredentials(user: Option<User>, token: Option<string>)
    | Logout
    | LoginUser(login: Phase<LoginReply>)
    | RegisterUser(Phase<()>)

  /** The reducer as a function of the old state, storage included. */
  function Next(c: UserCodec, s: AuthState, a: Action): AuthState {
    match a
    case SetCredentials(u, t) => s.(user := u, token := t)
    case Logout => s.(user := None, token := None, storage := s.storage - {TokenKey} - {UserKey})
    case LoginUser(Pending) => s.(loading := true, error := None)
    case LoginUser(Fulfilled(r)) =>
      s.(loading := false, user := Some(r.user), token := Some(r.token),
         storage := s.storage[UserKey := c.encode(r.user)][TokenKey := r.token])
    case LoginUser(Rejected(m)) => s.(loading := false, error := Some(m))
    case RegisterUser(Pending) => s.(loading := true, error := None)
    case RegisterUser(Fulfilled(_)) => s.(loading := false)
    case RegisterUser(Rejected(m)) => s.(loading := false, error := Some(m))
  }

  /** The dashboard's mount effect: when the store has no user but storage holds a truthy user and
      a truthy token, it dispatches setCredentials with the parsed user and the stored token. */
  function Restore(c: UserCodec, s: AuthState): AuthState {
    var storedUser := GetItem(s.storage, UserKey);
    var storedToken := GetItem(s.storage, TokenKey);
    if s.user.None? && Truthy(storedUser) && Truthy(storedToken)
    then Next(c, s, SetCredentials(c.decode(storedUser.value), storedToken))
    else s
  }

  class AuthSlice {
    var user: Option<User>
    var token: Option<string>
    var loading: bool
    var error: Option<string>
    const storage: Storage
    const codec: UserCodec

    function State(): AuthState
      reads this, storage
    {
      AuthState(user, token, loading, error, storage.items)
    }

    constructor (storage: Storage, codec: UserCodec)
      ensures this.storage == storage
      ensures forall u :: this.codec.encode(u) == codec.encode(u)
      ensures forall t :: this.codec.decode(t) == codec.decode(t)
      ensures State() == Initial(codec, storage.items)
    {
      this.storage := storage;
      this.codec := codec;
      var storedUser := storage.Get(UserKey);
      var storedToken := storage.Get(TokenKey);
      user := if storedUser.Some? then codec.decode(storedUser.value) else None;
      token := if Truthy(storedToken) then storedToken else None;
      loading := false;
      error := None;
    }

    method Dispatch(a: Action)
      modifies this, storage
      ensures State() == Next(codec, old(State()), a)
    {
      match a
      case SetCredentials(u, t) =>
        user := u;
        token := t;
      case Logout =>
        user := None;
        token := None;
        storage.RemoveItem(TokenKey);
        storage.RemoveItem(UserKey);
      case LoginUser(Pending) =>
        loading := true;
        error := None;
      case LoginUser(Fulfilled(r)) =>
        loading := false;
        user := Some(r.user);
        token := Some(r.token);
        storage.SetItem(UserKey, codec.encode(r.user));
        storage.SetItem(TokenKey, r.token);
      case LoginUser(Rejected(m)) =>
        loading := false;
        error := Some(m);
      case RegisterUser(Pending) =>
        loading := true;
        error := None;
      case RegisterUser(Fulfilled(_)) =>
        loading := false;
      case RegisterUser(Rejected(m)) =>
        loading := false;
        error := Some(m);
    }

    method RestoreSession()
      modifies this, storage
      ensures State() == Restore(codec, old(State()))
    {
      var storedUser := storage.Get(UserKey);
      var storedToken := storage.Get(TokenKey);
      if user.None? && Truthy(storedUser) && Truthy(storedToken) {
        Dispatch(SetCredentials(codec.decode(storedUser.value), storedToken));
      }
    }
  }

  /** The initial user and token come from storage when present (the token only when non-empty)
      and are null otherwise. */
  lemma InitialReadsStorage(c: UserCodec, m: map<string, string>)
    ensures var s := Initial(c, m);
      && (UserKey !in m ==> s.user == None)
      && (UserKey in m ==> s.user == c.decode(m[UserKey]))
      && (s.token.Some? <==> TokenKey in m && m[TokenKey] != "")
      && (s.token.Some? ==> s.token.value == m[TokenKey])
      && !s.loading && s.error == None && s.storage == m
  {
  }

  /** setCredentials sets the session in memory only: storage, loading and error are unchanged. */
  lemma SetCredentialsMemoryOnly(c: UserCodec, s: AuthState, u: Option<User>, t: Option<string>)
    ensures var n := Next(c, s, SetCredentials(u, t));
      n.user == u && n.token == t && n.storage == s.storage && n.loading == s.loading && n.error == s.error
  {
  }

  /** logout clears the session and removes exactly the "token" and "user" keys; every other key
      ("orgId" among them) keeps its value. */
  lemma LogoutRemovesExactlySession(c: UserCodec, s: AuthState)
    ensures var n := Next(c, s, Logout);
      && n.user == None && n.token == None
      && n.storage.Keys == s.storage.Keys - {TokenKey, UserKey}
      && (forall k :: k in n.storage ==> n.storage[k] == s.storage[k])
      && n.loading == s.loading && n.error == s.error
  {
  }

  /** loginUser.fulfilled sets the session from the reply in memory and in storage: "token" holds the
      raw token, "user" the encoded user, other keys are untouched. */
  lemma LoginStoresSession(c: UserCodec, s: AuthState, r: LoginReply)
    ensures var n := Next(c, s, LoginUser(Fulfilled(r)));
      && n.user == Some(r.user) && n.token == Some(r.token) && !n.loading && n.error == s.error
      && GetItem(n.storage, TokenKey) == Some(r.token)
      && GetItem(n.storage, UserKey) == Some(c.encode(r.user))
      && (forall k :: k in s.storage && k != TokenKey && k != UserKey ==> k in n.storage && n.storage[k] == s.storage[k])
      && n.storage.Keys == s.storage.Keys + {TokenKey, UserKey}
  {
  }

  /** Both rejections end loading and record the reason; the session in memory and in storage stays as it was. */
  lemma RejectionsKeepSession(c: UserCodec, s: AuthState, m: string)
    ensures Next(c, s, LoginUser(Rejected(m))) == s.(loading := false, error := Some(m))
    ensures Next(c, s, RegisterUser(Rejected(m))) == s.(loading := false, error := Some(m))
  {
  }

  /** A failed call is reported with the server's message when it has one, "Login failed" or
      "Register failed" otherwise. */
  lemma FailedCallsReported(c: UserCodec, s: AuthState, message: Option<string>)
    ensures Next(c, s, LoginUser(Settle(Failed(message), LoginFailed))).error == Some(Or(message, LoginFailed))
    ensures Next(c, s, RegisterUser(Settle(Failed(message), RegisterFailed))).error == Some(Or(message, RegisterFailed))
  {
  }

  /** registerUser.fulfilled only ends loading: it never establishes a session. */
  lemma RegisterNeverLogsIn(c: UserCodec, s: AuthState)
    ensures Next(c, s, RegisterUser(Fulfilled(()))) == s.(loading := false)
  {
  }

  /** Both pending cases raise loading and clear the previous error, leaving user, token and storage. */
  lemma PendingRules(c: UserCodec, s: AuthState)
    ensures Next(c, s, LoginUser(Pending)) == s.(loading := true, error := None)
    ensures Next(c, s, RegisterUser(Pending)) == s.(loading := true, error := None)
  {
  }

  /** After logout, neither a reload (initial state from storage) nor the dashboard's restore brings
      the session back. */
  lemma NoResurrectionAfterLogout(c: UserCodec, s: AuthState)
    ensures var n := Next(c, s, Logout);
      && Initial(c, n.storage).user == None && Initial(c, n.storage).token == None
      && Restore(c, n) == n
  {
  }

  /** The dashboard's restore changes the state only when there is no user in memory and storage holds
      both a truthy user and a truthy token; it never touches storage. */
  lemma RestoreOnlyWhenBothStored(c: UserCodec, s: AuthState)
    ensures Restore(c, s) != s ==>
      s.user == None && Truthy(GetItem(s.storage, UserKey)) && Truthy(GetItem(s.storage, TokenKey))
    ensures Restore(c, s).storage == s.storage
    ensures s.user.Some? ==> Restore(c, s) == s
  {
  }

  /** When its guard holds, the restore re-hydrates memory from storage: the user becomes the parsed
      stored user and the token the stored token; storage, loading and error stay as they were. */
  lemma RestoreRehydrates(c: UserCodec, s: AuthState)
    requires s.user.None? && Truthy(GetItem(s.storage, UserKey)) && Truthy(GetItem(s.storage, TokenKey))
    ensures Restore(c, s) == s.(user := c.decode(s.storage[UserKey]), token := Some(s.storage[TokenKey]))
    ensures RoundTrips(c) && (exists u :: s.storage[UserKey] == c.encode(u)) ==> Restore(c, s).user.Some?
  {
  }

  /** The restore is idempotent: the effect may run again whenever `user` changes, and a second run
      after a first finds nothing to do. */
  lemma RestoreIdempotent(c: UserCodec, s: AuthState)
    ensures Restore(c, Restore(c, s)) == Restore(c, s)
  {
  }

  /** Starting from any storage, the restore finds nothing to change in the state a reload builds. */
  lemma RestoreAfterReloadIsNoOp(c: UserCodec, m: map<string, string>)
    ensures Restore(c, Initial(c, m)) == Initial(c, m)
  {
  }

  /** Memory and storage are in step: a reload now would rebuild the same session. */
  ghost predicate InStep(c: UserCodec, s: AuthState) {
    Initial(c, s.storage).user == s.user && Initial(c, s.storage).token == s.token
  }

  /** After a login whose token is non-empty, a reload restores exactly the session that was established. */
  lemma ReloadAfterLogin(c: UserCodec, s: AuthState, r: LoginReply)
    requires RoundTrips(c) && r.token != ""
    ensures InStep(c, Next(c, s, LoginUser(Fulfilled(r))))
    ensures Initial(c, Next(c, s, LoginUser(Fulfilled(r))).storage).user == Some(r.user)
  {
    var n := Next(c, s, LoginUser(Fulfilled(r)));
    assert n.storage[UserKey] == c.encode(r.user);
  }

  /** Every transition except setCredentials (which writes memory only) keeps memory and storage in
      step, given a codec that round-trips and a login reply with a non-empty token; so does the restore. */
  lemma NextKeepsInStep(c: UserCodec, s: AuthState, a: Action)
    requires RoundTrips(c) && InStep(c, s) && !a.SetCredentials?
    requires a.LoginUser? && a.login.Fulfilled? ==> a.login.payload.token != ""
    ensures InStep(c, Next(c, s, a))
    ensures InStep(c, Restore(c, s))
  {
    match a
    case LoginUser(Fulfilled(r)) => ReloadAfterLogin(c, s, r);
    case _ =>
  }

  /** Login with a reply `{user: {role: "main"}, token: "t1"}` gives a session whose role is "main" and
      a stored token "t1". */
  lemma LoginScenario(c: UserCodec, s: AuthState, u: User)
    requires u.role == "main"
    ensures var n := Next(c, s, LoginUser(Fulfilled(LoginReply(u, "t1"))));
      n.user.Some? && n.user.value.role == "main" && GetItem(n.storage, TokenKey) == Some("t1")
  {
  }
}
