/**
 * The session logic of `contexts/AuthContext.tsx`, one function per
 * operation over a snapshot of the provider's state (the in-memory user, the
 * loading flag, the browser storage and the navigations pushed so far), and
 * what those operations promise, as lemmas. The provider class in
 * `auth_context.dfy` is proved to follow these functions.
 */
module AuthSession {
  import opened Wrappers
  import opened BrowserStorage
  import opened UserRecord
  import opened Api
  import opened Strings

  const SessionTokenKey := "muzads_auth_token"
  const UserDataKey := "muzads_user_data"
  const LoginRoute := "/login"
  const SessionTokenPrefix := "session_"
  const PublicRoutes := ["/", "/login", "/register", "/blog", "/faq", "/about"]

  datatype Snapshot = Snapshot(
    user: Option<User>, isLoading: bool, items: map<string, string>, pushed: seq<string>)

  /** How a login or register call ends: resolved or rejected, and the state after it. */
  datatype Settled = Settled(result: Outcome<()>, after: Snapshot)

  /** The state a freshly mounted provider starts in, over whatever the browser has stored. */
  function Startup(items: map<string, string>): Snapshot
  {
    Snapshot(None, true, items, [])
  }

  /** `isAuthenticated: !!user` */
  predicate Authenticated(s: Snapshot) { s.user.Some? }

  /** Both session keys or neither, and a signed-in user always has a stored token. */
  predicate Consistent(s: Snapshot)
  {
    && (SessionTokenKey in s.items <==> UserDataKey in s.items)
    && (s.user.Some? ==> SessionTokenKey in s.items)
  }

  // ------------------------------------------------------------ routes

  /** `routes.some(route => path === route || path.startsWith('/blog/') || path.startsWith('/use-cases/'))` */
  predicate AnyRoute(routes: seq<string>, path: string)
  {
    && routes != []
    && (|| path == routes[0]
        || HasPrefix(path, "/blog/")
        || HasPrefix(path, "/use-cases/")
        || AnyRoute(routes[1..], path))
  }

  predicate IsPublicRoute(path: string) { AnyRoute(PublicRoutes, path) }

  lemma {:induction false} AnyRouteIff(routes: seq<string>, path: string)
    ensures AnyRoute(routes, path) <==>
      routes != [] && (path in routes || HasPrefix(path, "/blog/") || HasPrefix(path, "/use-cases/"))
  {
    if routes != [] {
      AnyRouteIff(routes[1..], path);
      assert routes == [routes[0]] + routes[1..];
    }
  }

  /**
   * A path is public exactly when it is one of the six listed routes or
   * starts with "/blog/" or "/use-cases/".
   */
  lemma PublicRouteIff(path: string)
    ensures IsPublicRoute(path) <==>
      || path in {"/", "/login", "/register", "/blog", "/faq", "/about"}
      || HasPrefix(path, "/blog/")
      || HasPrefix(path, "/use-cases/")
  {
    AnyRouteIff(PublicRoutes, path);
  }

  lemma PublicRouteExamples()
    ensures IsPublicRoute("/blog") && IsPublicRoute("/blog/launch-notes")
    ensures IsPublicRoute("/use-cases/retail") && !IsPublicRoute("/use-cases")
    ensures IsPublicRoute("/") && !IsPublicRoute("/dashboard")
  {
    PublicRouteIff("/blog");
    PublicRouteIff("/blog/launch-notes");
    PublicRouteIff("/use-cases/retail");
    PublicRouteIff("/use-cases");
    assert "/use-cases"[..6][1] != "/blog/"[1];
    PublicRouteIff("/");
    PublicRouteIff("/dashboard");
  }

  // ------------------------------------------------------------ operations

  function ToUser(r: UserResponse): User
  {
    User(r.id, r.email, r.isVerified)
  }

  /** JavaScript truthiness of a stored string: present and non-empty. */
  predicate Filled(v: Option<string>) { v.Some? && v.value != "" }

  /** The cached user hydration adopts, if both keys are filled and the record parses. */
  function CachedUser(items: map<string, string>): Option<User>
  {
    var token := Lookup(items, SessionTokenKey);
    var data := Lookup(items, UserDataKey);
    if Filled(token) && Filled(data) then Parse(data.value) else None
  }

  /**
   * `initAuth`: with both keys filled, adopt the cached user and then try to
   * replace it by a fresh copy from the backend; if the cached record does
   * not parse, remove both keys; in every case loading ends.
   */
  function Hydrate(s: Snapshot, server: Backend): Snapshot
  {
    var token := Lookup(s.items, SessionTokenKey);
    var data := Lookup(s.items, UserDataKey);
    if !(Filled(token) && Filled(data)) then s.(isLoading := false)
    else
      match Parse(data.value)
      case None => s.(isLoading := false, items := s.items - {SessionTokenKey, UserDataKey})
      case Some(cached) =>
        match GetUserByEmail(cached.email, server)
        case Ok(latest) =>
          s.(user := Some(ToUser(latest)), isLoading := false,
             items := s.items[UserDataKey := Stringify(ToUser(latest))])
        case Err(_) => s.(user := Some(cached), isLoading := false)
  }

  /** The route-guard effect: push "/login" once loading is over, nobody is signed in and the path is private. */
  function Guard(s: Snapshot, path: string): Snapshot
  {
    if !s.isLoading && s.user.None? && !IsPublicRoute(path) then s.(pushed := s.pushed + [LoginRoute])
    else s
  }

  function SessionToken(nonce: string): string { SessionTokenPrefix + nonce }

  /**
   * `login`: ask the backend, then fetch the user by the same email, then
   * store token and user and adopt the user. `nonce` stands for the
   * time-and-random part of the generated token.
   */
  function Login(s: Snapshot, credentials: LoginRequest, server: Backend, nonce: string): Settled
  {
    match LoginUser(credentials, server)
    case Err(e) => Settled(Err(e), s)
    case Ok(response) =>
      if !response.success then Settled(Err(APIError(Or(Some(response.message), "Login failed"), None)), s)
      else
        match GetUserByEmail(credentials.email, server)
        case Err(e) => Settled(Err(e), s)
        case Ok(latest) =>
          var u := ToUser(latest);
          Settled(Ok(()), s.(user := Some(u),
                             items := s.items[SessionTokenKey := SessionToken(nonce)][UserDataKey := Stringify(u)]))
  }

  /** `{...userData, is_verified: false}` */
  function RegistrationSent(data: RegisterRequest): RegisterRequest
  {
    data.(isVerified := Some(false))
  }

  /** `register`: create the account unverified, then log in with the same credentials if an id came back. */
  function Register(s: Snapshot, data: RegisterRequest, server: Backend, nonce: string): Settled
  {
    match RegisterUser(RegistrationSent(data), server)
    case Err(e) => Settled(Err(e), s)
    case Ok(created) =>
      if created.id != 0 then Login(s, LoginRequest(data.email, data.password), server, nonce)
      else Settled(Ok(()), s)
  }

  /** `logout`: remove both keys, forget the user and navigate to "/login". */
  function Logout(s: Snapshot): Snapshot
  {
    s.(items := s.items - {SessionTokenKey, UserDataKey}, user := None, pushed := s.pushed + [LoginRoute])
  }

  /** `refreshUser`: re-fetch the signed-in user; a failure is only logged. */
  function Refresh(s: Snapshot, server: Backend): Snapshot
  {
    match s.user
    case None => s
    case Some(current) =>
      match GetUserByEmail(current.email, server)
      case Ok(latest) => s.(user := Some(ToUser(latest)), items := s.items[UserDataKey := Stringify(ToUser(latest))])
      case Err(_) => s
  }

  // ------------------------------------------------------------ route guard

  /**
   * The guard navigates to "/login" exactly when loading is over, nobody is
   * signed in and the path is not public; it changes nothing else, and
   * nothing at all while loading.
   */
  lemma GuardRedirectsIff(s: Snapshot, path: string)
    ensures Guard(s, path).pushed == s.pushed + [LoginRoute] <==>
      !s.isLoading && s.user.None? && !IsPublicRoute(path)
    ensures Guard(s, path).pushed == s.pushed || Guard(s, path).pushed == s.pushed + [LoginRoute]
    ensures Guard(s, path).(pushed := s.pushed) == s
    ensures s.isLoading ==> Guard(s, path) == s
  {
    assert s.pushed != s.pushed + [LoginRoute] by {
      assert |s.pushed + [LoginRoute]| == |s.pushed| + 1;
    }
  }

  /** An anonymous visitor is sent away from "/dashboard" but may read "/blog/anything". */
  lemma GuardAnonymousVisitor(s: Snapshot)
    requires !s.isLoading && s.user.None?
    ensures Guard(s, "/dashboard").pushed == s.pushed + [LoginRoute]
    ensures Guard(s, "/blog/anything") == s
  {
    PublicRouteIff("/dashboard");
    assert "/dashboard"[..6][1] != "/blog/"[1];
    PublicRouteIff("/blog/anything");
  }

  // ------------------------------------------------------------ hydration

  /** Hydration always ends loading, and changes neither the navigations nor any other key. */
  lemma HydrateSettles(s: Snapshot, server: Backend)
    ensures !Hydrate(s, server).isLoading
    ensures Hydrate(s, server).pushed == s.pushed
    ensures forall k :: k != SessionTokenKey && k != UserDataKey ==>
      Lookup(Hydrate(s, server).items, k) == Lookup(s.items, k)
  {
  }

  /** With a parseable cached user, hydration adopts it and keeps it when the refresh fails. */
  lemma HydrateKeepsCacheOnFailedRefresh(s: Snapshot, server: Backend, cached: User)
    requires CachedUser(s.items) == Some(cached)
    requires GetUserByEmail(cached.email, server).Err?
    ensures Hydrate(s, server) == s.(user := Some(cached), isLoading := false)
  {
  }

  /** With a parseable cached user and a successful refresh, the latest user replaces it in memory and in storage. */
  lemma HydrateAdoptsRefresh(s: Snapshot, server: Backend, cached: User)
    requires CachedUser(s.items) == Some(cached)
    requires GetUserByEmail(cached.email, server).Ok?
    ensures var latest := ToUser(GetUserByEmail(cached.email, server).value);
      Hydrate(s, server) == s.(user := Some(latest), isLoading := false, items := s.items[UserDataKey := Stringify(latest)])
  {
  }

  /** When both keys are filled but the record does not parse, both keys are removed and the user is left as it was. */
  lemma HydratePurgesCorrupt(s: Snapshot, server: Backend)
    requires Filled(Lookup(s.items, SessionTokenKey)) && Filled(Lookup(s.items, UserDataKey))
    requires Parse(s.items[UserDataKey]).None?
    ensures Hydrate(s, server) == s.(isLoading := false, items := s.items - {SessionTokenKey, UserDataKey})
    ensures SessionTokenKey !in Hydrate(s, server).items && UserDataKey !in Hydrate(s, server).items
  {
  }

  /** With a key missing or empty, hydration only ends loading, even if the other key is stored. */
  lemma HydrateIgnoresIncomplete(s: Snapshot, server: Backend)
    requires !Filled(Lookup(s.items, SessionTokenKey)) || !Filled(Lookup(s.items, UserDataKey))
    ensures Hydrate(s, server) == s.(isLoading := false)
  {
  }

  /** A session stored by a successful login is restored by the next page load, even offline. */
  lemma ReloadRestoresLogin(s: Snapshot, credentials: LoginRequest, server: Backend, nonce: string, later: Backend)
    requires Login(s, credentials, server, nonce).result.Ok?
    requires GetUserByEmail(Login(s, credentials, server, nonce).after.user.value.email, later).Err?
    ensures var done := Login(s, credentials, server, nonce).after;
      Hydrate(Startup(done.items), later).user == done.user
  {
    var done := Login(s, credentials, server, nonce).after;
    var u := done.user.value;
    assert done.items[UserDataKey] == Stringify(u);
    assert done.items[SessionTokenKey] == SessionToken(nonce);
    ParseStringify(u);
    assert CachedUser(done.items) == Some(u);
  }

  // ------------------------------------------------------------ login and register

  /**
   * Login succeeds exactly when the backend accepts the credentials and the
   * user fetch succeeds; it then stores a "session_" token and the fetched
   * user, signs that user in, and leaves every other key alone.
   */
  lemma LoginSucceeds(s: Snapshot, credentials: LoginRequest, server: Backend, nonce: string)
    ensures var t := Login(s, credentials, server, nonce);
      t.result.Ok? <==>
        && LoginUser(credentials, server).Ok?
        && LoginUser(credentials, server).value.success
        && GetUserByEmail(credentials.email, server).Ok?
    ensures var t := Login(s, credentials, server, nonce);
      t.result.Ok? ==>
        var u := ToUser(GetUserByEmail(credentials.email, server).value);
        && t.after.user == Some(u)
        && SessionTokenKey in t.after.items && HasPrefix(t.after.items[SessionTokenKey], SessionTokenPrefix)
        && UserDataKey in t.after.items && Parse(t.after.items[UserDataKey]) == Some(u)
        && t.after.isLoading == s.isLoading && t.after.pushed == s.pushed
        && (forall k :: k != SessionTokenKey && k != UserDataKey ==> Lookup(t.after.items, k) == Lookup(s.items, k))
  {
    var t := Login(s, credentials, server, nonce);
    if t.result.Ok? {
      var u := ToUser(GetUserByEmail(credentials.email, server).value);
      ParseStringify(u);
      assert t.after.items[SessionTokenKey][..|SessionTokenPrefix|] == SessionTokenPrefix;
    }
  }

  /**
   * A failed login changes nothing; when the backend answers with
   * `success: false` the error carries its message, or "Login failed", and no
   * status.
   */
  lemma LoginFailsAtomically(s: Snapshot, credentials: LoginRequest, server: Backend, nonce: string)
    ensures Login(s, credentials, server, nonce).result.Err? ==> Login(s, credentials, server, nonce).after == s
    ensures LoginUser(credentials, server).Ok? && !LoginUser(credentials, server).value.success ==>
      var m := LoginUser(credentials, server).value.message;
      Login(s, credentials, server, nonce).result ==
        Err(APIError(if m != "" then m else "Login failed", None))
    ensures LoginUser(credentials, server).Err? ==>
      Login(s, credentials, server, nonce).result == Err(LoginUser(credentials, server).error)
    ensures LoginUser(credentials, server).Ok? && LoginUser(credentials, server).value.success &&
            GetUserByEmail(credentials.email, server).Err? ==>
      Login(s, credentials, server, nonce).result == Err(GetUserByEmail(credentials.email, server).error)
  {
  }

  /**
   * Registration always posts an unverified account, with "123456" as the
   * code when the caller gave none or an empty one.
   */
  lemma RegistrationIsUnverified(data: RegisterRequest)
    ensures !RegisterPayloadOf(RegistrationSent(data)).isVerified
    ensures data.verificationOtp.None? ==> RegisterPayloadOf(RegistrationSent(data)).verificationOtp == DefaultOtp
    ensures RegisterPayloadOf(RegistrationSent(data)).email == data.email
    ensures RegisterPayloadOf(RegistrationSent(data)).password == data.password
  {
  }

  /**
   * Register followed by its automatic login ends exactly as a direct login
   * with the same email and password; with an id of 0 it resolves without
   * signing in; a rejected registration changes nothing.
   */
  lemma RegisterChainsLogin(s: Snapshot, data: RegisterRequest, server: Backend, nonce: string)
    ensures var created := RegisterUser(RegistrationSent(data), server);
      created.Ok? && created.value.id != 0 ==>
        Register(s, data, server, nonce) == Login(s, LoginRequest(data.email, data.password), server, nonce)
    ensures var created := RegisterUser(RegistrationSent(data), server);
      created.Ok? && created.value.id == 0 ==> Register(s, data, server, nonce) == Settled(Ok(()), s)
    ensures RegisterUser(RegistrationSent(data), server).Err? ==>
      Register(s, data, server, nonce) == Settled(Err(RegisterUser(RegistrationSent(data), server).error), s)
  {
  }

  // ------------------------------------------------------------ logout and refresh

  /** Logout from any state removes both keys, signs out, navigates to "/login" and keeps every other key. */
  lemma LogoutClears(s: Snapshot)
    ensures SessionTokenKey !in Logout(s).items && UserDataKey !in Logout(s).items
    ensures !Authenticated(Logout(s))
    ensures Logout(s).pushed == s.pushed + [LoginRoute] && Logout(s).isLoading == s.isLoading
    ensures forall k :: k != SessionTokenKey && k != UserDataKey ==> Lookup(Logout(s).items, k) == Lookup(s.items, k)
    ensures Logout(Logout(s)).items == Logout(s).items && Logout(Logout(s)).user == Logout(s).user
  {
  }

  /**
   * Refresh does nothing without a signed-in user or when the fetch fails;
   * otherwise it replaces the user in memory and in storage. It never
   * touches the token key, the loading flag or the navigations.
   */
  lemma RefreshOnlyReplacesUser(s: Snapshot, server: Backend)
    ensures s.user.None? ==> Refresh(s, server) == s
    ensures s.user.Some? && GetUserByEmail(s.user.value.email, server).Err? ==> Refresh(s, server) == s
    ensures s.user.Some? && GetUserByEmail(s.user.value.email, server).Ok? ==>
      var latest := ToUser(GetUserByEmail(s.user.value.email, server).value);
      Refresh(s, server).user == Some(latest) && Parse(Refresh(s, server).items[UserDataKey]) == Some(latest)
    ensures forall k :: k != UserDataKey ==> Lookup(Refresh(s, server).items, k) == Lookup(s.items, k)
    ensures Refresh(s, server).isLoading == s.isLoading && Refresh(s, server).pushed == s.pushed
    ensures Authenticated(Refresh(s, server)) == Authenticated(s)
  {
    if s.user.Some? && GetUserByEmail(s.user.value.email, server).Ok? {
      ParseStringify(ToUser(GetUserByEmail(s.user.value.email, server).value));
    }
  }

  // ------------------------------------------------------------ invariants

  /**
   * Every operation keeps the token and the user record paired in storage,
   * and a signed-in user backed by a stored token; hydration from the
   * startup state (nobody signed in) does too.
   */
  lemma OperationsKeepConsistent(s: Snapshot, server: Backend, credentials: LoginRequest,
                                 data: RegisterRequest, nonce: string, path: string)
    requires Consistent(s)
    ensures s.user.None? ==> Consistent(Hydrate(s, server))
    ensures Consistent(Guard(s, path))
    ensures Consistent(Login(s, credentials, server, nonce).after)
    ensures Consistent(Register(s, data, server, nonce).after)
    ensures Consistent(Logout(s))
    ensures Consistent(Refresh(s, server))
  {
    var created := RegisterUser(RegistrationSent(data), server);
    if created.Ok? && created.value.id != 0 {
      assert Register(s, data, server, nonce) == Login(s, LoginRequest(data.email, data.password), server, nonce);
    }
  }

  /** No session operation reads or writes the backend client's separate "auth_token" key. */
  lemma OperationsLeaveApiTokenAlone(s: Snapshot, server: Backend, credentials: LoginRequest,
                                     data: RegisterRequest, nonce: string, path: string)
    ensures Lookup(Hydrate(s, server).items, AuthTokenKey) == Lookup(s.items, AuthTokenKey)
    ensures Lookup(Guard(s, path).items, AuthTokenKey) == Lookup(s.items, AuthTokenKey)
    ensures Lookup(Login(s, credentials, server, nonce).after.items, AuthTokenKey) == Lookup(s.items, AuthTokenKey)
    ensures Lookup(Register(s, data, server, nonce).after.items, AuthTokenKey) == Lookup(s.items, AuthTokenKey)
    ensures Lookup(Logout(s).items, AuthTokenKey) == Lookup(s.items, AuthTokenKey)
    ensures Lookup(Refresh(s, server).items, AuthTokenKey) == Lookup(s.items, AuthTokenKey)
  {
  }
}
