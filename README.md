# Firebase login front end: gateway, configuration and session-state model

A Dafny model of the client-side authentication core of a React Native / Expo
app that signs users up, in and out through Firebase Auth:

- `firebase.dfy` (module `Firebase`): reading the connection parameters from the
  environment, `validateConfig`, and the module body that initialises or reuses
  the default app and defines `auth` only when the configuration is valid.
- `auth_service.dfy` (module `AuthService`): the gateway. `handleAuthError` maps
  Firebase error codes to fixed Spanish messages; `signUp`, `signIn` and `signOut`
  check that Auth was initialised, make their provider calls and rethrow every
  provider failure only after translating it; `onAuthStateChanged` falls back to
  firing `null` once when Auth is missing.
- `session.dfy` (module `Session`): the session store (`user`, `error`, `loading`)
  with its setters, and the write log from which its state is always replayed.
- `use_auth.dfy` (module `UseAuth`): the success and error callbacks of the
  `useSignUp`, `useSignIn` and `useSignOut` mutations, writing to the store, the
  query cache and the router.
- `providers.dfy` (module `Providers`): the auth-state listener's mount effect,
  event callback and cleanup.
- `wrappers.dfy`: `Option`, standing for `undefined`/`null`.

Provider calls are not executed: each is an `Outcome` (`Resolved(value)` or
`Rejected(FirebaseError(code, message))`) passed in as a parameter, and each
gateway operation returns a `Run` holding its result and the provider calls it
made, in order. The Firebase `auth` binding is passed to the gateway as an
`Option<Auth>`. The store's `logout` is kept abstract: it is a transition
`AuthState -> AuthState` fixed when the store is created, and nothing is assumed
about it.

Where the code and the intended design of the coordination layer disagree, the
model follows the code:
- starting a sign-up or sign-in does not set `loading` or clear the error; the
  store is written only when the mutation settles;
- nothing suppresses a second sign-in issued while one is in flight;
- an auth-state event only calls `setUser`; the listener never lowers `loading`;
- the not-initialised guard throws `'Firebase Auth is not initialized'` without
  translation, and the sign-up/sign-in error callbacks store that message as is.

## Model

| member | source | states |
|---|---|---|
| `Firebase.MissingKeys` | config/firebase.ts:21-23 | A key is in the result exactly when it is listed and unset, empty or the placeholder; the result is empty exactly when no listed key fails. |
| `Firebase.MissingKeysIsSubsequence` | config/firebase.ts:21-23 | The failing keys come out as an order-preserving sub-list of the keys checked. |
| `Firebase.ValidateConfig` | config/firebase.ts:14-33 | True exactly when every required key is set, non-empty and not the placeholder. |
| `Firebase.ValidateConfigNamesThreeKeys` | config/firebase.ts:15-19 | The required set is exactly the API key, the project id and the app id. |
| `Firebase.PlaceholderRejected` | config/firebase.ts:22 | Setting any required key, not only the API key, to the placeholder makes validation fail. |
| `Firebase.OptionalKeysNeverFail` | config/firebase.ts:4-19 | Setting or unsetting the auth domain, storage bucket or messaging sender id never changes the verdict. |
| `Firebase.AppRegistry.InitializeApp` | config/firebase.ts:41 | Creates the app from the configuration and appends it to the registry, counting the call. |
| `Firebase.AppRegistry.GetApp` | config/firebase.ts:44 | Returns the existing default app. |
| `Firebase.FirebaseModule.Load` | config/firebase.ts:3-49 | `auth` (and `app`) is defined exactly when validation passes on the environment seen by the computed `process.env[key]` lookups; an existing app is reused, so a new one is created only when none exists, from the configuration object `ConfigFrom(staticEnv)` built from the literal `process.env.EXPO_PUBLIC_…` reads (undefined when unset); `initializeApp` is called at most once over repeated loads. |
| `AuthService.HandleAuthError` | services/auth-service.ts:94-131 | A recognised code gets its fixed table message; any other code keeps the error's own message, or the generic message when that is empty; the message is never empty. |
| `AuthService.RecognisedCodesAreTheTable` | services/auth-service.ts:98-125 | The message table holds exactly the nine recognised codes. |
| `AuthService.RecognisedMessageIgnoresErrorMessage` | services/auth-service.ts:98-125 | For a recognised code the translation does not depend on the error's message and is never the generic one. |
| `AuthService.RecognisedMessagesDistinct` | services/auth-service.ts:99-124 | Two different recognised codes translate to different messages. |
| `AuthService.TableMessagesDistinct` | services/auth-service.ts:99-124 | No two codes of the message table share a message. |
| `AuthService.Translate` | services/auth-service.ts:42-44 | A resolved call passes its value through; a rejection becomes its translation, never the raw error. |
| `AuthService.SignUp` | services/auth-service.ts:26-45 | Without Auth it fails with the untranslated not-initialised error and makes no provider call; otherwise account creation comes first, the profile update is made only after creation returned a user and carries that user and the given display name; success returns the created user; each rejection is rethrown translated, including an update failure after a successful creation. |
| `AuthService.SignIn` | services/auth-service.ts:50-61 | Without Auth it fails untranslated with no provider call; otherwise one sign-in call, whose user is returned or whose rejection is rethrown translated. |
| `AuthService.SignOut` | services/auth-service.ts:66-76 | Without Auth it fails untranslated with no provider call; otherwise one sign-out call, whose rejection is rethrown translated. |
| `AuthService.NoRawErrorEscapes` | services/auth-service.ts:27-76 | Every failure of the three operations is the guard's error or the translation of the rejecting call, with a non-empty message. |
| `AuthService.OnAuthStateChanged` | services/auth-service.ts:81-89 | Without Auth the callback fires exactly once, with `null`, stays unregistered and the handle does nothing; otherwise it delegates to the provider, firing nothing at once and returning the provider's detaching handle. |
| `Session.ListenerWritesEffect` | components/providers.tsx:20-29 | Writes made only of `setLoading(true)` and `setUser`, as the listener's own write log always is, never touch the error, never lower `loading`, and leave the user of the last event. |
| `Session.AuthStore.SetUser` | hooks/use-auth.ts:10 | Replaces the user, keeps the rest, logs the write. |
| `Session.AuthStore.SetError` | hooks/use-auth.ts:10 | Sets the error message, keeps the rest, logs the write. |
| `Session.AuthStore.ClearError` | hooks/use-auth.ts:10 | Clears the error, keeps the rest, logs the write. |
| `Session.AuthStore.SetLoading` | components/providers.tsx:20 | Sets the loading flag, keeps the rest, logs the write. |
| `Session.AuthStore.Logout` | hooks/use-auth.ts:56 | Applies the store's own (unspecified) logout transition and logs it. |
| `UseAuth.InvalidateUserOnly` | hooks/use-auth.ts:19 | Invalidating `['user']` marks exactly the queries whose key starts with `user` stale and keeps every other query and the set of cached keys. |
| `UseAuth.QueryClient.InvalidateQueries` | hooks/use-auth.ts:19 | Marks the queries under the prefix stale and logs the action. |
| `UseAuth.QueryClient.Clear` | hooks/use-auth.ts:64 | Empties the cache and logs the action. |
| `UseAuth.Router.Replace` | hooks/use-auth.ts:65 | Records the route navigated to. |
| `UseAuth.SessionWritesEffect` | hooks/use-auth.ts:16-25 | A settled sign-up or sign-in replaces the user and clears the error on success, and on failure keeps the user and stores the message; `loading` is untouched either way. |
| `UseAuth.ErrorClearedOnlyOnSuccess` | hooks/use-auth.ts:14-26 | The error is cleared, and the user written, exactly when the operation succeeded. |
| `UseAuth.SignOutWritesEffect` | hooks/use-auth.ts:62-69 | A successful sign-out is exactly the store's logout; a failed one only stores the message. |
| `UseAuth.WrongPasswordScenario` | hooks/use-auth.ts:46-48 | A sign-in rejected with `auth/wrong-password` leaves the user as it was and the error set to the wrong-password message. |
| `UseAuth.SignUpScenario` | services/auth-service.ts:32-41 | A sign-up whose two provider calls succeed creates, then names the created user, and the store ends with that user and no error. |
| `UseAuth.AuthMutations.OnSignUpSuccess` | hooks/use-auth.ts:16-22 | Writes `setUser(user)` then `clearError()`, invalidates only `['user']`, and does not navigate. |
| `UseAuth.AuthMutations.OnSignUpError` | hooks/use-auth.ts:23-25 | Only `setError(message)`: the user and the cache are unchanged. |
| `UseAuth.AuthMutations.OnSignInSuccess` | hooks/use-auth.ts:39-45 | Writes `setUser(user)` then `clearError()`, invalidates only `['user']`, and does not navigate. |
| `UseAuth.AuthMutations.OnSignInError` | hooks/use-auth.ts:46-48 | Only `setError(message)`: the user and the cache are unchanged. |
| `UseAuth.AuthMutations.OnSignOutSuccess` | hooks/use-auth.ts:62-66 | The store's only write is `logout`, the whole cache is cleared, and the router's last navigation is `/(auth)/login`. |
| `UseAuth.AuthMutations.OnSignOutError` | hooks/use-auth.ts:67-69 | Only `setError(message)`: no logout, no cache clear, no navigation. |
| `UseAuth.AuthMutations.SignUp` | hooks/use-auth.ts:14-26 | Runs the gateway's sign-up and then exactly the callback for its outcome; the store writes are those of the settled result and nothing is written before. |
| `UseAuth.AuthMutations.SignIn` | hooks/use-auth.ts:37-49 | Runs the gateway's sign-in and then exactly the callback for its outcome; a previous error persists until success clears it. |
| `UseAuth.AuthMutations.SignOut` | hooks/use-auth.ts:60-70 | Runs the gateway's sign-out; on success logout, cache clear and login navigation; on failure only the error message. |
| `Providers.AuthStateListener.OnAuthEvent` | components/providers.tsx:24-26 | Delivered only to a registered listener; every such event, `null` included, overwrites the store's user and nothing else, and is recorded as a `setUser` in the listener's write log, which holds only `setLoading(true)` and `setUser` writes. |
| `Providers.AuthStateListener.Mount` | components/providers.tsx:22-26 | `setLoading(true)` is the first store write (and the first entry added to the listener's write log); without Auth the `null` event is the only other one and follows it; the handle from the subscription is kept and the listener is registered exactly when Auth exists. |
| `Providers.AuthStateListener.Unmount` | components/providers.tsx:28 | Calls exactly the handle kept at mount, which unregisters the listener so no further event reaches it, and writes nothing to the store. |

## Left out

- The Firebase SDK calls (`createUserWithEmailAndPassword`, `signInWithEmailAndPassword`, `signOut`, `updateProfile`, `onAuthStateChanged`, `initializeApp`, `getAuth`, `getApps`, `getApp`): foreign library code, represented only by the outcomes they would have; `updateProfile`'s change to the user object it is given is not modelled, so the returned user is the one creation produced.
- An absent `error.code` or `error.message` is represented by the empty string; both behave the same in the translation (no case label is empty, and an empty message falls back to the generic one).
- `store/auth-store` is not part of this model: the setters get field-write semantics and `logout` is an unspecified transition; store observers and their notification are not modelled.
- React, react-query and expo-router machinery: hook and effect scheduling, the effect's dependency list, `QueryClient` options (retries, stale time), refetching of invalidated queries; the query cache is reduced to keys and stale flags and the router to its last `replace`.
- The relative order of writes to the store, the query cache, the router and the provider's registrations: each keeps its own log, so the model orders the calls within one object but not across them.
- Concurrency of overlapping mutations: the code has no guard, and each mutation is modelled as one atomic run from call to settled callback.
- Whether the literal `process.env.EXPO_PUBLIC_…` reads and the computed `process.env[key]` lookups see the same values once the app is bundled: `FirebaseModule.Load` takes them as two separate environments and promises nothing about how they relate.
- `console.warn` calls: logging only.
- The animated screen, the avatar, the root layout, the theme constants and the login and register screens (with their form validation): presentation, not part of this model.
