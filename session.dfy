/**
 * The session store the hooks and the auth-state listener write to: the
 * current user, the last error message and a loading flag. Its source is not
 * part of this model; `setUser`, `setError`, `clearError` and `setLoading`
 * are given plain field-write semantics, and `logout` stays an unspecified
 * transition fixed when the store is created.
 */
module Session {
  import opened Wrappers
  import opened AuthService

  datatype AuthState = AuthState(user: Option<User>, error: Option<string>, loading: bool)

  /** A call of one of the store's setters. */
  datatype StoreWrite =
    | SetUser(user: Option<User>)
    | SetError(message: string)
    | ClearError
    | SetLoading(loading: bool)
    | Logout

  /** The state after one write; `logout` is the store's own logout transition. */
  function Apply(s: AuthState, w: StoreWrite, logout: AuthState -> AuthState): AuthState {
    match w
    case SetUser(u) => s.(user := u)
    case SetError(m) => s.(error := Some(m))
    case ClearError => s.(error := None)
    case SetLoading(b) => s.(loading := b)
    case Logout => logout(s)
  }

  /** The state after a sequence of writes, applied in order. */
  function Replay(s: AuthState, ws: seq<StoreWrite>, logout: AuthState -> AuthState): AuthState
    decreases |ws|
  {
    if ws == [] then s else Apply(Replay(s, ws[..|ws| - 1], logout), ws[|ws| - 1], logout)
  }

  /** Replaying two batches of writes is replaying the second from where the first left. */
  lemma {:induction false} ReplayAppend(s: AuthState, ws: seq<StoreWrite>, more: seq<StoreWrite>, logout: AuthState -> AuthState)
    ensures Replay(s, ws + more, logout) == Replay(Replay(s, ws, logout), more, logout)
    decreases |more|
  {
    if more != [] {
      assert (ws + more)[..|ws + more| - 1] == ws + more[..|more| - 1];
      assert (ws + more)[|ws + more| - 1] == more[|more| - 1];
      ReplayAppend(s, ws, more[..|more| - 1], logout);
    } else {
      assert ws + more == ws;
    }
  }

  /** The writes the auth-state listener issues: `setLoading(true)` and `setUser`. */
  predicate IsListenerWrite(w: StoreWrite) {
    w == SetLoading(true) || w.SetUser?
  }

  /** The user of the last `SetUser` in `ws`, or `current` when there is none. */
  function LastUser(ws: seq<StoreWrite>, current: Option<User>): Option<User>
    decreases |ws|
  {
    if ws == [] then current
    else if ws[|ws| - 1].SetUser? then ws[|ws| - 1].user
    else LastUser(ws[..|ws| - 1], current)
  }

  /**
   * Whatever the listener writes leaves the error alone, never lowers the
   * loading flag, and leaves the user of the last event it received.
   */
  lemma {:induction false} ListenerWritesEffect(s: AuthState, ws: seq<StoreWrite>, logout: AuthState -> AuthState)
    requires forall i :: 0 <= i < |ws| ==> IsListenerWrite(ws[i])
    ensures Replay(s, ws, logout).error == s.error
    ensures Replay(s, ws, logout).loading == (s.loading || SetLoading(true) in ws)
    ensures Replay(s, ws, logout).user == LastUser(ws, s.user)
    decreases |ws|
  {
    if ws != [] {
      var init := ws[..|ws| - 1];
      ListenerWritesEffect(s, init, logout);
      assert ws == init + [ws[|ws| - 1]];
    }
  }

  /**
   * The store object. `writes` records every setter call so far; the state
   * is always the replay of those writes from the initial state.
   */
  class AuthStore {
    var user: Option<User>
    var error: Option<string>
    var loading: bool
    const logoutEffect: AuthState -> AuthState
    ghost const initial: AuthState
    ghost var writes: seq<StoreWrite>

    function State(): AuthState
      reads this
    {
      AuthState(user, error, loading)
    }

    ghost predicate Valid()
      reads this
    {
      State() == Replay(initial, writes, logoutEffect)
    }

    constructor (init: AuthState, logout: AuthState -> AuthState)
      ensures Valid() && State() == init && writes == [] && logoutEffect == logout
    {
      user, error, loading := init.user, init.error, init.loading;
      logoutEffect := logout;
      initial := init;
      writes := [];
    }

    method SetUser(u: Option<User>)
      requires Valid()
      modifies this
      ensures Valid() && writes == old(writes) + [StoreWrite.SetUser(u)]
      ensures State() == old(State()).(user := u)
    {
      user := u;
      writes := writes + [StoreWrite.SetUser(u)];
      ReplayAppend(initial, old(writes), [StoreWrite.SetUser(u)], logoutEffect);
    }

    method SetError(m: string)
      requires Valid()
      modifies this
      ensures Valid() && writes == old(writes) + [StoreWrite.SetError(m)]
      ensures State() == old(State()).(error := Some(m))
    {
      error := Some(m);
      writes := writes + [StoreWrite.SetError(m)];
      ReplayAppend(initial, old(writes), [StoreWrite.SetError(m)], logoutEffect);
    }

    method ClearError()
      requires Valid()
      modifies this
      ensures Valid() && writes == old(writes) + [StoreWrite.ClearError]
      ensures State() == old(State()).(error := None)
    {
      error := None;
      writes := writes + [StoreWrite.ClearError];
      ReplayAppend(initial, old(writes), [StoreWrite.ClearError], logoutEffect);
    }

    method SetLoading(b: bool)
      requires Valid()
      modifies this
      ensures Valid() && writes == old(writes) + [StoreWrite.SetLoading(b)]
      ensures State() == old(State()).(loading := b)
    {
      loading := b;
      writes := writes + [StoreWrite.SetLoading(b)];
      ReplayAppend(initial, old(writes), [StoreWrite.SetLoading(b)], logoutEffect);
    }

    method Logout()
      requires Valid()
      modifies this
      ensures Valid() && writes == old(writes) + [StoreWrite.Logout]
      ensures State() == logoutEffect(old(State()))
    {
      var next := logoutEffect(State());
      user, error, loading := next.user, next.error, next.loading;
      writes := writes + [StoreWrite.Logout];
      ReplayAppend(initial, old(writes), [StoreWrite.Logout], logoutEffect);
    }
  }
}
