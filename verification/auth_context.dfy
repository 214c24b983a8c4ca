/**
 * `AuthProvider` of `contexts/AuthContext.tsx` as an object: the React state
 * (`user`, `isLoading`), the navigations `router.push` was asked for, and the
 * browser storage it reads and writes. Each method performs the source's
 * steps in order and is proved to end in the state the matching function of
 * `AuthSession` describes; the properties are proved about those functions.
 */
module AuthContext {
  import opened Wrappers
  import opened BrowserStorage
  import opened UserRecord
  import opened Api
  import AuthSession

  class AuthProvider {
    var user: Option<User>
    var isLoading: bool
    var pushed: seq<string>
    const store: LocalStorage

    function State(): AuthSession.Snapshot
      reads this, store
    {
      AuthSession.Snapshot(user, isLoading, store.items, pushed)
    }

    /**
     * `isAuthenticated: !!user`: the session predicate on the provider's
     * state, so the lemmas about `AuthSession.Authenticated` apply to it.
     */
    function IsAuthenticated(): (b: bool)
      reads this, store
      ensures b == AuthSession.Authenticated(State())
    {
      user.Some?
    }

    /** A provider mounts with no user and loading under way. */
    constructor (store: LocalStorage)
      ensures this.store == store
      ensures State() == AuthSession.Startup(store.items)
    {
      this.store := store;
      user := None;
      isLoading := true;
      pushed := [];
    }

    /** `initAuth`; `fetched` is the email the refresh asked the backend for, if any. */
    method InitAuth(server: Backend) returns (fetched: Option<string>)
      modifies this, store
      ensures State() == AuthSession.Hydrate(old(State()), server)
      ensures fetched == match AuthSession.CachedUser(old(store.items))
                         case None => None
                         case Some(u) => Some(u.email)
    {
      var token := store.GetItem(AuthSession.SessionTokenKey);
      var data := store.GetItem(AuthSession.UserDataKey);
      fetched := None;
      if AuthSession.Filled(token) && AuthSession.Filled(data) {
        var parsed := Parse(data.value);
        if parsed.None? {
          ghost var before := store.items;
          store.RemoveItem(AuthSession.SessionTokenKey);
          store.RemoveItem(AuthSession.UserDataKey);
          assert store.items == before - {AuthSession.SessionTokenKey, AuthSession.UserDataKey};
        } else {
          var cached := parsed.value;
          user := Some(cached);
          fetched := Some(cached.email);
          var reply := GetUserByEmail(cached.email, server);
          if reply.Ok? {
            var updated := AuthSession.ToUser(reply.value);
            user := Some(updated);
            store.SetItem(AuthSession.UserDataKey, Stringify(updated));
          }
        }
      }
      isLoading := false;
    }

    /** The route-protection effect, run for the current `pathname`. */
    method ProtectRoute(pathname: string)
      modifies this
      ensures State() == AuthSession.Guard(old(State()), pathname)
    {
      if !isLoading {
        var isPublicRoute := AuthSession.IsPublicRoute(pathname);
        if user.None? && !isPublicRoute {
          pushed := pushed + [AuthSession.LoginRoute];
        }
      }
    }

    /** `login`; a rejection is returned as `Err` where the source throws. */
    method Login(credentials: LoginRequest, server: Backend, nonce: string) returns (result: Outcome<()>)
      modifies this, store
      ensures AuthSession.Settled(result, State()) == AuthSession.Login(old(State()), credentials, server, nonce)
    {
      var response := LoginUser(credentials, server);
      if response.Err? {
        return Err(response.error);
      }
      if !response.value.success {
        return Err(APIError(Or(Some(response.value.message), "Login failed"), None));
      }
      var sessionToken := AuthSession.SessionToken(nonce);
      var userData := GetUserByEmail(credentials.email, server);
      if userData.Err? {
        return Err(userData.error);
      }
      var userObj := AuthSession.ToUser(userData.value);
      store.SetItem(AuthSession.SessionTokenKey, sessionToken);
      store.SetItem(AuthSession.UserDataKey, Stringify(userObj));
      user := Some(userObj);
      result := Ok(());
    }

    /** `register`, which logs in with the same credentials when the backend returns an id. */
    method Register(data: RegisterRequest, server: Backend, nonce: string) returns (result: Outcome<()>)
      modifies this, store
      ensures AuthSession.Settled(result, State()) == AuthSession.Register(old(State()), data, server, nonce)
    {
      var registerResponse := RegisterUser(AuthSession.RegistrationSent(data), server);
      if registerResponse.Err? {
        return Err(registerResponse.error);
      }
      if registerResponse.value.id != 0 {
        result := Login(LoginRequest(data.email, data.password), server, nonce);
      } else {
        result := Ok(());
      }
    }

    /** `logout` */
    method Logout()
      modifies this, store
      ensures State() == AuthSession.Logout(old(State()))
    {
      ghost var before := store.items;
      store.RemoveItem(AuthSession.SessionTokenKey);
      store.RemoveItem(AuthSession.UserDataKey);
      assert store.items == before - {AuthSession.SessionTokenKey, AuthSession.UserDataKey};
      user := None;
      pushed := pushed + [AuthSession.LoginRoute];
    }

    /** `refreshUser`; `fetched` is the email asked for, absent when nobody is signed in. */
    method RefreshUser(server: Backend) returns (fetched: Option<string>)
      modifies this, store
      ensures State() == AuthSession.Refresh(old(State()), server)
      ensures fetched == match old(user) case None => None case Some(u) => Some(u.email)
    {
      fetched := None;
      if user.Some? {
        fetched := Some(user.value.email);
        var latest := GetUserByEmail(user.value.email, server);
        if latest.Ok? {
          var updatedUser := AuthSession.ToUser(latest.value);
          user := Some(updatedUser);
          store.SetItem(AuthSession.UserDataKey, Stringify(updatedUser));
        }
      }
    }
  }
}
