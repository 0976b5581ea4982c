/**
 * The session store: the current user, token and authenticated flag, kept
 * in memory and persisted to durable (`localStorage`) or session-scoped
 * (`sessionStorage`) storage under the keys `authToken` and `user`.
 *
 * The serialisation of a user (`JSON.stringify`) and the parsing of a
 * stored user string (`JSON.parse`) are abstract: a `Codec` of two
 * functions. The lemmas that need them to agree say so in a precondition.
 */
module Auth {
  import opened Wrappers
  import opened Js
  import opened Storage

  /** The two values of `User.role`: `'admin'` and `'user'`. */
  datatype Role = Admin | Member

  /** A user record, reduced to its id and the one field that drives behaviour. */
  datatype User = User(id: int, role: Role)

  /** `isAdmin`: the optional chaining makes a null user a non-admin. */
  function IsAdmin(user: Option<User>): (r: bool)
    ensures r <==> user.Some? && user.value.role == Admin
    ensures user == None ==> !r
  {
    match user
    case None => false
    case Some(u) => u.role == Admin
  }

  /** `AuthState`. */
  datatype AuthState = AuthState(user: Option<User>, token: Option<string>, isAuthenticated: bool)

  /** The state `logout` sets. */
  const SignedOut := AuthState(None, None, false)

  /** What `JSON.parse` of a stored user string yields when it does not throw. */
  datatype Parsed = ParsedNull | ParsedUser(user: User)

  function UserOf(p: Parsed): Option<User> {
    match p
    case ParsedNull => None
    case ParsedUser(u) => Some(u)
  }

  /** `JSON.stringify` on users and `JSON.parse` on strings (None: the parse throws). */
  datatype Codec = Codec(stringify: User -> string, parse: string -> Option<Parsed>)

  /** The codec reads back what it wrote for `u`, and what it wrote is not empty. */
  ghost predicate RoundTrips(c: Codec, u: User) {
    c.stringify(u) != "" && c.parse(c.stringify(u)) == Some(ParsedUser(u))
  }

  /** No user serialises to a string that parses back to `null`. */
  ghost predicate StringifyNeverNull(c: Codec) {
    forall u :: c.parse(c.stringify(u)) != Some(ParsedNull)
  }

  const TokenKey := "authToken"
  const UserKey := "user"

  /** The store's state together with the two storages it writes. */
  datatype Snapshot = Snapshot(state: AuthState, local: map<string, string>, session: map<string, string>)

  /** `initialState`: never authenticated; the token is read durable-first, and only in the browser. */
  function InitialState(browser: bool, local: map<string, string>, session: map<string, string>): (s: AuthState)
    ensures !s.isAuthenticated && s.user == None
    ensures !browser ==> s.token == None
    ensures browser && Truthy(Get(local, TokenKey)) ==> s.token == Get(local, TokenKey)
    ensures browser && !Truthy(Get(local, TokenKey)) ==> s.token == Get(session, TokenKey)
  {
    AuthState(None, if browser then Or(Get(local, TokenKey), Get(session, TokenKey)) else None, false)
  }

  /** The snapshot of a freshly created store over the given storages. */
  function Start(browser: bool, local: map<string, string>, session: map<string, string>): Snapshot {
    Snapshot(InitialState(browser, local, session), local, session)
  }

  /** The two writes `login` makes to the storage it chose. */
  function WriteSession(items: map<string, string>, token: string, userStr: string): map<string, string> {
    items[TokenKey := token][UserKey := userStr]
  }

  /** `login(user, token, rememberMe)`: writes only the chosen scope, then authenticates. */
  function LoginStep(browser: bool, c: Codec, w: Snapshot, user: User, token: string, rememberMe: bool): (w': Snapshot)
    ensures w'.state == AuthState(Some(user), Some(token), true)
    ensures browser && rememberMe ==>
      && Get(w'.local, TokenKey) == Some(token)
      && Get(w'.local, UserKey) == Some(c.stringify(user))
      && (forall k :: k != TokenKey && k != UserKey ==> Get(w'.local, k) == Get(w.local, k))
      && w'.session == w.session
    ensures browser && !rememberMe ==>
      && Get(w'.session, TokenKey) == Some(token)
      && Get(w'.session, UserKey) == Some(c.stringify(user))
      && (forall k :: k != TokenKey && k != UserKey ==> Get(w'.session, k) == Get(w.session, k))
      && w'.local == w.local
    ensures !browser ==> w'.local == w.local && w'.session == w.session
  {
    var userStr := c.stringify(user);
    var state := AuthState(Some(user), Some(token), true);
    if !browser then w.(state := state)
    else if rememberMe then Snapshot(state, WriteSession(w.local, token, userStr), w.session)
    else Snapshot(state, w.local, WriteSession(w.session, token, userStr))
  }

  /** `logout`: in the browser both scopes lose both keys; the state is signed out whatever it was. */
  function LogoutStep(browser: bool, w: Snapshot): (w': Snapshot)
    ensures w'.state == SignedOut
    ensures browser ==>
      && Get(w'.local, TokenKey) == None && Get(w'.local, UserKey) == None
      && Get(w'.session, TokenKey) == None && Get(w'.session, UserKey) == None
      && (forall k :: k != TokenKey && k != UserKey ==>
            Get(w'.local, k) == Get(w.local, k) && Get(w'.session, k) == Get(w.session, k))
    ensures !browser ==> w'.local == w.local && w'.session == w.session
  {
    if browser then Snapshot(SignedOut, w.local - {TokenKey, UserKey}, w.session - {TokenKey, UserKey})
    else w.(state := SignedOut)
  }

  /** The token `initialize` looks up: durable if truthy, else whatever the session scope holds. */
  function StoredToken(w: Snapshot): Option<string> {
    Or(Get(w.local, TokenKey), Get(w.session, TokenKey))
  }

  /** The user string `initialize` looks up, independently of the token and in the same order. */
  function StoredUser(w: Snapshot): Option<string> {
    Or(Get(w.local, UserKey), Get(w.session, UserKey))
  }

  /** `initialize` authenticates: in the browser, both picks truthy and the user string parses. */
  predicate Restores(browser: bool, c: Codec, w: Snapshot) {
    browser && Truthy(StoredToken(w)) && Truthy(StoredUser(w)) && c.parse(StoredUser(w).value).Some?
  }

  /** `initialize`: restores the session from storage or leaves the state exactly as it was; never writes storage. */
  function InitializeStep(browser: bool, c: Codec, w: Snapshot): (w': Snapshot)
    ensures w'.local == w.local && w'.session == w.session
    ensures Restores(browser, c, w) ==>
      w'.state == AuthState(UserOf(c.parse(StoredUser(w).value).value), StoredToken(w), true)
    ensures !Restores(browser, c, w) ==> w'.state == w.state
  {
    if browser && Truthy(StoredToken(w)) && Truthy(StoredUser(w)) then
      match c.parse(StoredUser(w).value)
      case None => w   // the parse error is logged and swallowed
      case Some(p) => w.(state := AuthState(UserOf(p), StoredToken(w), true))
    else w
  }

  /** The store's operations, for statements about every sequence of them. */
  datatype Op = Login(user: User, token: string, rememberMe: bool) | Logout | Initialize

  function Step(browser: bool, c: Codec, w: Snapshot, op: Op): Snapshot {
    match op
    case Login(u, t, r) => LoginStep(browser, c, w, u, t, r)
    case Logout => LogoutStep(browser, w)
    case Initialize => InitializeStep(browser, c, w)
  }

  /** The snapshot after running `ops` in order from `w`. */
  function Run(browser: bool, c: Codec, w: Snapshot, ops: seq<Op>): Snapshot
    decreases |ops|
  {
    if ops == [] then w else Run(browser, c, Step(browser, c, w, ops[0]), ops[1..])
  }

  /** Neither scope holds a `user` entry that parses to `null`. */
  ghost predicate StoredUsersNotNull(c: Codec, w: Snapshot) {
    && (UserKey in w.local ==> c.parse(w.local[UserKey]) != Some(ParsedNull))
    && (UserKey in w.session ==> c.parse(w.session[UserKey]) != Some(ParsedNull))
  }

  /** Authenticated implies a token; a user implies authenticated. */
  ghost predicate Consistent(s: AuthState) {
    (s.isAuthenticated ==> s.token.Some?) && (s.user.Some? ==> s.isAuthenticated)
  }

  lemma {:induction false} RunKeepsConsistent(browser: bool, c: Codec, w: Snapshot, ops: seq<Op>)
    requires Consistent(w.state)
    ensures Consistent(Run(browser, c, w, ops).state)
    decreases |ops|
  {
    if ops != [] {
      RunKeepsConsistent(browser, c, Step(browser, c, w, ops[0]), ops[1..]);
    }
  }

  /** Every state reached from a fresh store is consistent. */
  lemma ReachableIsConsistent(browser: bool, c: Codec, local: map<string, string>, session: map<string, string>, ops: seq<Op>)
    ensures Consistent(Run(browser, c, Start(browser, local, session), ops).state)
  {
    RunKeepsConsistent(browser, c, Start(browser, local, session), ops);
  }

  /**
   * When neither scope starts with a `user` entry that parses to null, and no
   * user serialises to one, a user is present exactly when authenticated.
   */
  lemma {:induction false} RunKeepsUserIffAuthenticated(browser: bool, c: Codec, w: Snapshot, ops: seq<Op>)
    requires StringifyNeverNull(c) && StoredUsersNotNull(c, w)
    requires w.state.user.Some? <==> w.state.isAuthenticated
    ensures StoredUsersNotNull(c, Run(browser, c, w, ops))
    ensures var s := Run(browser, c, w, ops).state; s.user.Some? <==> s.isAuthenticated
    decreases |ops|
  {
    if ops != [] {
      var w1 := Step(browser, c, w, ops[0]);
      match ops[0] {
        case Login(u, _, _) =>
          assert c.parse(c.stringify(u)) != Some(ParsedNull);
        case Logout =>
        case Initialize =>
          if Restores(browser, c, w) {
            assert c.parse(StoredUser(w).value) != Some(ParsedNull);
          }
      }
      RunKeepsUserIffAuthenticated(browser, c, w1, ops[1..]);
    }
  }

  lemma ReachableUserIffAuthenticated(browser: bool, c: Codec, local: map<string, string>, session: map<string, string>, ops: seq<Op>)
    requires StringifyNeverNull(c) && StoredUsersNotNull(c, Start(browser, local, session))
    ensures var s := Run(browser, c, Start(browser, local, session), ops).state; s.user.Some? <==> s.isAuthenticated
  {
    RunKeepsUserIffAuthenticated(browser, c, Start(browser, local, session), ops);
  }

  /** The store touches only `authToken` and `user`: every other key of both scopes keeps its value. */
  lemma {:induction false} RunKeepsOtherKeys(browser: bool, c: Codec, w: Snapshot, ops: seq<Op>, key: string)
    requires key != TokenKey && key != UserKey
    ensures Get(Run(browser, c, w, ops).local, key) == Get(w.local, key)
    ensures Get(Run(browser, c, w, ops).session, key) == Get(w.session, key)
    decreases |ops|
  {
    if ops != [] {
      RunKeepsOtherKeys(browser, c, Step(browser, c, w, ops[0]), ops[1..], key);
    }
  }

  /** `logout` is idempotent. */
  lemma LogoutIdempotent(browser: bool, w: Snapshot)
    ensures LogoutStep(browser, LogoutStep(browser, w)) == LogoutStep(browser, w)
  {
  }

  /** A remembered login survives a restart: a fresh store plus `initialize` gives back that user and token. */
  lemma RememberedLoginRestores(c: Codec, w: Snapshot, user: User, token: string)
    requires RoundTrips(c, user) && token != ""
    ensures var after := LoginStep(true, c, w, user, token, true);
            var restarted := Start(true, after.local, after.session);
            && restarted.state.token == Some(token)
            && InitializeStep(true, c, restarted).state == AuthState(Some(user), Some(token), true)
  {
  }

  /** A session-scoped login is restored too, provided the durable scope holds no truthy token or user. */
  lemma SessionLoginRestores(c: Codec, w: Snapshot, user: User, token: string)
    requires RoundTrips(c, user) && token != ""
    requires !Truthy(Get(w.local, TokenKey)) && !Truthy(Get(w.local, UserKey))
    ensures var after := LoginStep(true, c, w, user, token, false);
            InitializeStep(true, c, Start(true, after.local, after.session)).state == AuthState(Some(user), Some(token), true)
  {
  }

  /**
   * `login` does not clear the other scope: after a session-scoped login, a
   * stale durable token still takes precedence at the next start and in `initialize`.
   */
  lemma StaleDurableTokenWins(c: Codec, w: Snapshot, user: User, token: string)
    requires Truthy(Get(w.local, TokenKey))
    ensures var after := LoginStep(true, c, w, user, token, false);
            && Start(true, after.local, after.session).state.token == Get(w.local, TokenKey)
            && StoredToken(after) == Get(w.local, TokenKey)
  {
  }

  /** Token and user are picked independently, so `initialize` can combine a durable token with a session user. */
  lemma InitializeMixesScopes(c: Codec, w: Snapshot, u: User)
    requires Truthy(Get(w.local, TokenKey)) && !Truthy(Get(w.local, UserKey))
    requires Truthy(Get(w.session, UserKey)) && c.parse(w.session[UserKey]) == Some(ParsedUser(u))
    ensures InitializeStep(true, c, w).state == AuthState(Some(u), Get(w.local, TokenKey), true)
  {
  }

  /** The store object: `browser`, the two storages it shares with the page, and the writable's value. */
  class AuthStore {
    const browser: bool
    const codec: Codec
    const local: WebStorage
    const session: WebStorage
    var state: AuthState

    ghost predicate Valid()
      reads this
    {
      local != session && Consistent(state)
    }

    ghost function Current(): Snapshot
      reads this, local, session
    {
      Snapshot(state, local.items, session.items)
    }

    /** `createAuthStore()`. */
    constructor (browser: bool, codec: Codec, local: WebStorage, session: WebStorage)
      requires local != session
      ensures Valid()
      ensures this.browser == browser && this.codec == codec && this.local == local && this.session == session
      ensures Current() == Start(browser, local.items, session.items)
    {
      this.browser := browser;
      this.codec := codec;
      this.local := local;
      this.session := session;
      var token := if browser then Or(Get(local.items, TokenKey), Get(session.items, TokenKey)) else None;
      state := AuthState(None, token, false);
    }

    method Login(user: User, token: string, rememberMe: bool := false)
      requires Valid()
      modifies this, local, session
      ensures Valid()
      ensures Current() == LoginStep(browser, codec, old(Current()), user, token, rememberMe)
    {
      if browser {
        if rememberMe {
          local.SetItem(TokenKey, token);
          local.SetItem(UserKey, codec.stringify(user));
        } else {
          session.SetItem(TokenKey, token);
          session.SetItem(UserKey, codec.stringify(user));
        }
      }
      state := AuthState(Some(user), Some(token), true);
    }

    method Logout()
      requires Valid()
      modifies this, local, session
      ensures Valid()
      ensures Current() == LogoutStep(browser, old(Current()))
    {
      if browser {
        local.RemoveItem(TokenKey);
        local.RemoveItem(UserKey);
        session.RemoveItem(TokenKey);
        session.RemoveItem(UserKey);
      }
      state := SignedOut;
    }

    method Initialize()
      requires Valid()
      modifies this
      ensures Valid()
      ensures Current() == InitializeStep(browser, codec, old(Current()))
    {
      if browser {
        var token := Or(Get(local.items, TokenKey), Get(session.items, TokenKey));
        var userStr := Or(Get(local.items, UserKey), Get(session.items, UserKey));
        if Truthy(token) && Truthy(userStr) {
          var parsed := codec.parse(userStr.value);
          if parsed.Some? {
            state := AuthState(UserOf(parsed.value), token, true);
          }
        }
      }
    }
  }
}
