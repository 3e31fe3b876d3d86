/**
 * The three mutation hooks. Each runs a gateway operation; when it settles,
 * its success or error callback writes to the session store, and the
 * sign-up/sign-in success callbacks invalidate the user query while the
 * sign-out success callback clears the query cache and navigates to login.
 * The store is written only when the operation settles, never when it starts.
 */
module UseAuth {
  import opened Wrappers
  import opened Firebase
  import opened AuthService
  import opened Session

  /** A react-query key, such as `['user']`. */
  type QueryKey = seq<string>

  const UserQueryKey: QueryKey := ["user"]
  const LoginRoute := "/(auth)/login"

  datatype CacheAction = Invalidate(prefix: QueryKey) | ClearAll

  /** The cache after invalidating every query whose key starts with `prefix`. */
  function MarkStale(entries: map<QueryKey, bool>, prefix: QueryKey): map<QueryKey, bool> {
    map k | k in entries :: entries[k] || prefix <= k
  }

  /** The query cache: each cached query's key and whether it is stale. */
  class QueryClient {
    var entries: map<QueryKey, bool>
    ghost var actions: seq<CacheAction>

    constructor (cached: map<QueryKey, bool>)
      ensures entries == cached && actions == []
    {
      entries := cached;
      actions := [];
    }

    method InvalidateQueries(prefix: QueryKey)
      modifies this
      ensures entries == MarkStale(old(entries), prefix)
      ensures actions == old(actions) + [Invalidate(prefix)]
    {
      entries := MarkStale(entries, prefix);
      actions := actions + [Invalidate(prefix)];
    }

    method Clear()
      modifies this
      ensures entries == map[]
      ensures actions == old(actions) + [ClearAll]
    {
      entries := map[];
      actions := actions + [ClearAll];
    }
  }

  /** The router, reduced to where it last navigated with `replace`. */
  class Router {
    var lastNavigation: Option<string>

    constructor ()
      ensures lastNavigation == None
    {
      lastNavigation := None;
    }

    method Replace(path: string)
      modifies this
      ensures lastNavigation == Some(path)
    {
      lastNavigation := Some(path);
    }
  }

  /** Invalidating `['user']` marks exactly the user queries stale and leaves every other query as it was. */
  lemma InvalidateUserOnly(entries: map<QueryKey, bool>, k: QueryKey)
    requires k in entries
    ensures k in MarkStale(entries, UserQueryKey)
    ensures |k| > 0 && k[0] == "user" ==> MarkStale(entries, UserQueryKey)[k]
    ensures (|k| == 0 || k[0] != "user") ==> MarkStale(entries, UserQueryKey)[k] == entries[k]
    ensures MarkStale(entries, UserQueryKey).Keys == entries.Keys
  {
    assert |k| > 0 && k[0] == "user" ==> UserQueryKey <= k;
  }

  /** The store writes of the sign-up and sign-in callbacks, once the operation has settled. */
  function SessionWrites(r: Result<Option<User>>): seq<StoreWrite> {
    match r
    case Ok(user) => [StoreWrite.SetUser(user), StoreWrite.ClearError]
    case Fail(e) => [StoreWrite.SetError(e.message)]
  }

  /** The store writes of the sign-out callbacks, once the operation has settled. */
  function SignOutWrites(r: Result<()>): seq<StoreWrite> {
    match r
    case Ok(_) => [StoreWrite.Logout]
    case Fail(e) => [StoreWrite.SetError(e.message)]
  }

  /**
   * A settled sign-up or sign-in replaces the user and clears the error on
   * success; on failure it records the message and keeps the user.
   */
  lemma SessionWritesEffect(s: AuthState, r: Result<Option<User>>, logout: AuthState -> AuthState)
    ensures var t := Replay(s, SessionWrites(r), logout);
      t.loading == s.loading &&
      (r.Ok? ==> t.user == r.value && t.error == None) &&
      (r.Fail? ==> t.user == s.user && t.error == Some(r.error.message))
  {
    ReplayAppend(s, [SessionWrites(r)[0]], SessionWrites(r)[1..], logout);
  }

  /** The error is cleared, and the user written, only when the operation succeeded. */
  lemma ErrorClearedOnlyOnSuccess(r: Result<Option<User>>)
    ensures StoreWrite.ClearError in SessionWrites(r) <==> r.Ok?
    ensures (exists u :: StoreWrite.SetUser(u) in SessionWrites(r)) <==> r.Ok?
  {
    if r.Ok? {
      assert SessionWrites(r)[0] == StoreWrite.SetUser(r.value);
    }
  }

  /** A failed sign-out records the message only; a successful one is the store's logout. */
  lemma SignOutWritesEffect(s: AuthState, r: Result<()>, logout: AuthState -> AuthState)
    ensures StoreWrite.Logout in SignOutWrites(r) <==> r.Ok?
    ensures r.Ok? ==> Replay(s, SignOutWrites(r), logout) == logout(s)
    ensures r.Fail? ==> Replay(s, SignOutWrites(r), logout) == s.(error := Some(r.error.message))
  {
  }

  /** Sign-in rejected with a wrong password: the store shows its message and keeps the user. */
  lemma WrongPasswordScenario(s: AuthState, auth: Auth, data: SignInData, message: string, logout: AuthState -> AuthState)
    ensures Replay(s, SessionWrites(SignIn(Some(auth), data, Rejected(FirebaseError(WrongPassword, message))).result), logout)
      == s.(error := Some("Contraseña incorrecta."))
  {
  }

  /**
   * A sign-up whose account creation and profile update both succeed sets
   * the name on the created user, leaves that user in the store and clears
   * the error.
   */
  lemma SignUpScenario(s: AuthState, auth: Auth, data: SignUpData, user: User, logout: AuthState -> AuthState)
    ensures var run := SignUp(Some(auth), data, Resolved(Some(user)), Resolved(()));
      run.calls == [CreateUserWithEmailAndPassword(data.email, data.password), UpdateProfile(user, data.displayName)] &&
      Replay(s, SessionWrites(run.result), logout) == s.(user := Some(user), error := None)
  {
    SessionWritesEffect(s, Ok(Some(user)), logout);
  }

  /** The three hooks, bound to one store, one query client and one router. */
  class AuthMutations {
    const store: AuthStore
    const queryClient: QueryClient
    const router: Router

    constructor (store: AuthStore, queryClient: QueryClient, router: Router)
      ensures this.store == store && this.queryClient == queryClient && this.router == router
    {
      this.store := store;
      this.queryClient := queryClient;
      this.router := router;
    }

    /** `useSignUp`'s `onSuccess`: set the user, then clear the error, then invalidate `['user']`. */
    method OnSignUpSuccess(user: Option<User>)
      requires store.Valid()
      modifies store, queryClient
      ensures store.Valid()
      ensures store.writes == old(store.writes) + [StoreWrite.SetUser(user), StoreWrite.ClearError]
      ensures store.State() == old(store.State()).(user := user, error := None)
      ensures queryClient.entries == MarkStale(old(queryClient.entries), UserQueryKey)
      ensures queryClient.actions == old(queryClient.actions) + [Invalidate(UserQueryKey)]
    {
      store.SetUser(user);
      store.ClearError();
      queryClient.InvalidateQueries(UserQueryKey);
    }

    /** `useSignUp`'s `onError`: record the message; nothing else. */
    method OnSignUpError(error: Error)
      requires store.Valid()
      modifies store
      ensures store.Valid()
      ensures store.writes == old(store.writes) + [StoreWrite.SetError(error.message)]
      ensures store.State() == old(store.State()).(error := Some(error.message))
    {
      store.SetError(error.message);
    }

    /** `useSignIn`'s `onSuccess`: set the user, then clear the error, then invalidate `['user']`. */
    method OnSignInSuccess(user: Option<User>)
      requires store.Valid()
      modifies store, queryClient
      ensures store.Valid()
      ensures store.writes == old(store.writes) + [StoreWrite.SetUser(user), StoreWrite.ClearError]
      ensures store.State() == old(store.State()).(user := user, error := None)
      ensures queryClient.entries == MarkStale(old(queryClient.entries), UserQueryKey)
      ensures queryClient.actions == old(queryClient.actions) + [Invalidate(UserQueryKey)]
    {
      store.SetUser(user);
      store.ClearError();
      queryClient.InvalidateQueries(UserQueryKey);
    }

    /** `useSignIn`'s `onError`: record the message; nothing else. */
    method OnSignInError(error: Error)
      requires store.Valid()
      modifies store
      ensures store.Valid()
      ensures store.writes == old(store.writes) + [StoreWrite.SetError(error.message)]
      ensures store.State() == old(store.State()).(error := Some(error.message))
    {
      store.SetError(error.message);
    }

    /** `useSignOut`'s `onSuccess`: logout, clear the whole cache, go to the login screen. */
    method OnSignOutSuccess()
      requires store.Valid()
      modifies store, queryClient, router
      ensures store.Valid()
      ensures store.writes == old(store.writes) + [StoreWrite.Logout]
      ensures store.State() == store.logoutEffect(old(store.State()))
      ensures queryClient.entries == map[]
      ensures queryClient.actions == old(queryClient.actions) + [ClearAll]
      ensures router.lastNavigation == Some(LoginRoute)
    {
      store.Logout();
      queryClient.Clear();
      router.Replace(LoginRoute);
    }

    /** `useSignOut`'s `onError`: record the message; no logout, no cache clear, no navigation. */
    method OnSignOutError(error: Error)
      requires store.Valid()
      modifies store
      ensures store.Valid()
      ensures store.writes == old(store.writes) + [StoreWrite.SetError(error.message)]
      ensures store.State() == old(store.State()).(error := Some(error.message))
    {
      store.SetError(error.message);
    }

    /**
     * A sign-up mutation: the gateway call (whose provider outcomes are
     * given), then the callback for how it settled. Nothing is written
     * before it settles; the router is never used.
     */
    method SignUp(auth: Option<Auth>, data: SignUpData, create: Outcome<Option<User>>, update: Outcome<()>)
      returns (r: Result<Option<User>>)
      requires store.Valid()
      modifies store, queryClient
      ensures r == AuthService.SignUp(auth, data, create, update).result
      ensures store.Valid()
      ensures store.writes == old(store.writes) + SessionWrites(r)
      ensures store.State() == Replay(old(store.State()), SessionWrites(r), store.logoutEffect)
      ensures r.Ok? ==> queryClient.entries == MarkStale(old(queryClient.entries), UserQueryKey)
      ensures r.Ok? ==> queryClient.actions == old(queryClient.actions) + [Invalidate(UserQueryKey)]
      ensures r.Fail? ==> queryClient.entries == old(queryClient.entries) && queryClient.actions == old(queryClient.actions)
    {
      r := AuthService.SignUp(auth, data, create, update).result;
      ghost var before := store.State();
      if r.Ok? {
        OnSignUpSuccess(r.value);
      } else {
        OnSignUpError(r.error);
      }
      SessionWritesEffect(before, r, store.logoutEffect);
    }

    /** A sign-in mutation: the gateway call, then the callback for how it settled. */
    method SignIn(auth: Option<Auth>, data: SignInData, outcome: Outcome<Option<User>>)
      returns (r: Result<Option<User>>)
      requires store.Valid()
      modifies store, queryClient
      ensures r == AuthService.SignIn(auth, data, outcome).result
      ensures store.Valid()
      ensures store.writes == old(store.writes) + SessionWrites(r)
      ensures store.State() == Replay(old(store.State()), SessionWrites(r), store.logoutEffect)
      ensures r.Ok? ==> queryClient.entries == MarkStale(old(queryClient.entries), UserQueryKey)
      ensures r.Ok? ==> queryClient.actions == old(queryClient.actions) + [Invalidate(UserQueryKey)]
      ensures r.Fail? ==> queryClient.entries == old(queryClient.entries) && queryClient.actions == old(queryClient.actions)
    {
      r := AuthService.SignIn(auth, data, outcome).result;
      ghost var before := store.State();
      if r.Ok? {
        OnSignInSuccess(r.value);
      } else {
        OnSignInError(r.error);
      }
      SessionWritesEffect(before, r, store.logoutEffect);
    }

    /** A sign-out mutation: the gateway call, then the callback for how it settled. */
    method SignOut(auth: Option<Auth>, outcome: Outcome<()>) returns (r: Result<()>)
      requires store.Valid()
      modifies store, queryClient, router
      ensures r == AuthService.SignOut(auth, outcome).result
      ensures store.Valid()
      ensures store.writes == old(store.writes) + SignOutWrites(r)
      ensures store.State() == Replay(old(store.State()), SignOutWrites(r), store.logoutEffect)
      ensures r.Ok? ==> queryClient.entries == map[] && router.lastNavigation == Some(LoginRoute)
      ensures r.Ok? ==> queryClient.actions == old(queryClient.actions) + [ClearAll]
      ensures r.Fail? ==>
        queryClient.entries == old(queryClient.entries) && queryClient.actions == old(queryClient.actions) &&
        router.lastNavigation == old(router.lastNavigation)
    {
      r := AuthService.SignOut(auth, outcome).result;
      ghost var before := store.State();
      if r.Ok? {
        OnSignOutSuccess();
      } else {
        OnSignOutError(r.error);
      }
      SignOutWritesEffect(before, r, store.logoutEffect);
    }
  }
}
