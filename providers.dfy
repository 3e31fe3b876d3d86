/**
 * The auth-state listener mounted at the root of the app: on mount it raises
 * the loading flag and subscribes to auth-state changes; every event it
 * receives overwrites the store's user; on unmount it calls the handle it
 * got when subscribing.
 */
module Providers {
  import opened Wrappers
  import opened Firebase
  import opened AuthService
  import opened Session

  class AuthStateListener {
    const store: AuthStore
    /** The handle the effect keeps for its cleanup; `None` before the first mount. */
    var unsubscribe: Option<Unsubscribe>
    /** The listeners of this component the provider still delivers events to. */
    var registered: set<nat>
    /** The handles the cleanup has called, in order. */
    ghost var unsubscribeCalls: seq<Unsubscribe>
    /** The store writes this listener has made, in order. */
    ghost var listenerWrites: seq<StoreWrite>

    /** The listener writes only `setLoading(true)` and `setUser`. */
    ghost predicate Valid()
      reads this
    {
      forall i :: 0 <= i < |listenerWrites| ==> IsListenerWrite(listenerWrites[i])
    }

    constructor (store: AuthStore)
      ensures this.store == store && unsubscribe == None && registered == {} && unsubscribeCalls == []
      ensures Valid() && listenerWrites == []
    {
      this.store := store;
      unsubscribe := None;
      registered := {};
      unsubscribeCalls := [];
      listenerWrites := [];
    }

    /**
     * The subscribed callback, invoked by the provider for `listener` while
     * it is registered: whatever the event, including `null`, it becomes the
     * store's user.
     */
    method OnAuthEvent(listener: nat, user: Option<User>)
      requires store.Valid()
      requires listener in registered
      requires Valid()
      modifies this`listenerWrites, store
      ensures store.Valid() && Valid()
      ensures store.writes == old(store.writes) + [StoreWrite.SetUser(user)]
      ensures listenerWrites == old(listenerWrites) + [StoreWrite.SetUser(user)]
      ensures store.State() == old(store.State()).(user := user)
    {
      store.SetUser(user);
      listenerWrites := listenerWrites + [StoreWrite.SetUser(user)];
    }

    /**
     * The effect: `setLoading(true)` first, then subscribe. Without Auth the
     * callback fires at once with `null`; with Auth the provider keeps the
     * callback (as `listener`) for later events.
     */
    method Mount(auth: Option<Auth>, listener: nat)
      requires store.Valid() && Valid()
      modifies this, store
      ensures store.Valid() && Valid()
      ensures auth.None? ==>
        store.writes == old(store.writes) + [StoreWrite.SetLoading(true), StoreWrite.SetUser(None)] &&
        listenerWrites == old(listenerWrites) + [StoreWrite.SetLoading(true), StoreWrite.SetUser(None)] &&
        store.State() == old(store.State()).(loading := true, user := None)
      ensures auth.Some? ==>
        store.writes == old(store.writes) + [StoreWrite.SetLoading(true)] &&
        listenerWrites == old(listenerWrites) + [StoreWrite.SetLoading(true)] &&
        store.State() == old(store.State()).(loading := true)
      ensures unsubscribe == Some(OnAuthStateChanged(auth, listener).unsubscribe)
      ensures registered == if auth.Some? then old(registered) + {listener} else old(registered)
      ensures unsubscribeCalls == old(unsubscribeCalls)
    {
      store.SetLoading(true);
      listenerWrites := listenerWrites + [StoreWrite.SetLoading(true)];
      var subscription := OnAuthStateChanged(auth, listener);
      if subscription.firedNow.Some? {
        // the callback, fired during subscription
        store.SetUser(subscription.firedNow.value);
        listenerWrites := listenerWrites + [StoreWrite.SetUser(subscription.firedNow.value)];
        assert store.writes == old(store.writes) + [StoreWrite.SetLoading(true), StoreWrite.SetUser(None)];
        assert listenerWrites == old(listenerWrites) + [StoreWrite.SetLoading(true), StoreWrite.SetUser(None)];
      }
      unsubscribe := Some(subscription.unsubscribe);
      if subscription.registered {
        registered := registered + {listener};
      }
    }

    /** The cleanup: call the handle kept at mount, detaching the callback; the store is not written. */
    method Unmount()
      requires unsubscribe.Some?
      modifies this
      ensures listenerWrites == old(listenerWrites)
      ensures unsubscribeCalls == old(unsubscribeCalls) + [old(unsubscribe).value]
      ensures registered == match old(unsubscribe).value
        case Detach(l) => old(registered) - {l}
        case NoOp => old(registered)
      ensures unsubscribe == old(unsubscribe)
    {
      unsubscribeCalls := unsubscribeCalls + [unsubscribe.value];
      match unsubscribe.value
      case Detach(l) => registered := registered - {l};
      case NoOp =>
    }
  }
}
