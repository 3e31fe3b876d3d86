/**
 * The Firebase configuration module: reading the six connection parameters
 * from the environment, deciding whether the three required ones are usable,
 * and initialising (or reusing) the default app and its Auth instance only
 * when they are.
 */
module Firebase {
  import opened Wrappers

  /** The process environment: a variable that is not set is absent from the map. */
  type Env = map<string, string>

  const ApiKeyVar := "EXPO_PUBLIC_FIREBASE_API_KEY"
  const AuthDomainVar := "EXPO_PUBLIC_FIREBASE_AUTH_DOMAIN"
  const ProjectIdVar := "EXPO_PUBLIC_FIREBASE_PROJECT_ID"
  const StorageBucketVar := "EXPO_PUBLIC_FIREBASE_STORAGE_BUCKET"
  const MessagingSenderIdVar := "EXPO_PUBLIC_FIREBASE_MESSAGING_SENDER_ID"
  const AppIdVar := "EXPO_PUBLIC_FIREBASE_APP_ID"

  /** The value shipped in the example environment file, treated as "not configured". */
  const Placeholder := "your_api_key_here"

  /** The variables without which Firebase is not initialised, in their checking order. */
  const RequiredKeys: seq<string> := [ApiKeyVar, ProjectIdVar, AppIdVar]

  /** The variables that are read into the configuration but never validated. */
  const OptionalKeys: seq<string> := [AuthDomainVar, StorageBucketVar, MessagingSenderIdVar]

  datatype FirebaseConfig = FirebaseConfig(
    apiKey: Option<string>,
    authDomain: Option<string>,
    projectId: Option<string>,
    storageBucket: Option<string>,
    messagingSenderId: Option<string>,
    appId: Option<string>)

  /** An initialised Firebase app, identified by the configuration it was created with. */
  datatype App = App(config: FirebaseConfig)

  /** The Auth instance of an app. */
  datatype Auth = Auth(app: App)

  function Lookup(env: Env, key: string): Option<string> {
    if key in env then Some(env[key]) else None
  }

  /** The configuration object built from the environment. */
  function ConfigFrom(env: Env): FirebaseConfig {
    FirebaseConfig(
      Lookup(env, ApiKeyVar),
      Lookup(env, AuthDomainVar),
      Lookup(env, ProjectIdVar),
      Lookup(env, StorageBucketVar),
      Lookup(env, MessagingSenderIdVar),
      Lookup(env, AppIdVar))
  }

  /**
   * A variable fails the check when it is unset, set to the empty string
   * (both falsy), or still holds the placeholder.
   */
  predicate Unusable(env: Env, key: string) {
    key !in env || env[key] == "" || env[key] == Placeholder
  }

  /** `keys.filter(Unusable)`: the failing keys, in the order they are listed. */
  function MissingKeys(env: Env, keys: seq<string>): (missing: seq<string>)
    ensures |missing| <= |keys|
    ensures forall k :: k in missing <==> k in keys && Unusable(env, k)
    ensures missing == [] <==> forall k :: k in keys ==> !Unusable(env, k)
  {
    if keys == [] then []
    else (if Unusable(env, keys[0]) then [keys[0]] else []) + MissingKeys(env, keys[1..])
  }

  /** `sub` is an order-preserving sub-list of `s`. */
  predicate IsSubsequence<T(==)>(sub: seq<T>, s: seq<T>)
    decreases |s|
  {
    if sub == [] then true
    else if s == [] then false
    else if sub[0] == s[0] then IsSubsequence(sub[1..], s[1..])
    else IsSubsequence(sub, s[1..])
  }

  /** The filter keeps the failing keys in their original relative order. */
  lemma {:induction false} MissingKeysIsSubsequence(env: Env, keys: seq<string>)
    ensures IsSubsequence(MissingKeys(env, keys), keys)
    decreases |keys|
  {
    if keys != [] {
      var rest := MissingKeys(env, keys[1..]);
      MissingKeysIsSubsequence(env, keys[1..]);
      if Unusable(env, keys[0]) {
        assert MissingKeys(env, keys) == [keys[0]] + rest;
        assert ([keys[0]] + rest)[1..] == rest;
      } else {
        assert MissingKeys(env, keys) == rest;
        SubsequenceOfTail(rest, keys);
      }
    }
  }

  /** A sub-list of the tail is a sub-list of the whole. */
  lemma {:induction false} SubsequenceOfTail<T>(sub: seq<T>, s: seq<T>)
    requires s != [] && IsSubsequence(sub, s[1..])
    ensures IsSubsequence(sub, s)
    decreases |s|, 1
  {
    if sub != [] && sub[0] == s[0] {
      DropFirst(sub, s[1..]);
    }
  }

  /** Dropping the first element of a sub-list leaves a sub-list. */
  lemma {:induction false} DropFirst<T>(sub: seq<T>, s: seq<T>)
    requires sub != [] && IsSubsequence(sub, s)
    ensures IsSubsequence(sub[1..], s)
    decreases |s|, 2
  {
    if sub[0] == s[0] {
      if s[1..] != [] {
        SubsequenceOfTail(sub[1..], s);
      }
    } else {
      DropFirst(sub, s[1..]);
      SubsequenceOfTail(sub[1..], s);
    }
  }

  /** Two environments that agree on the listed keys fail the same keys. */
  lemma {:induction false} MissingKeysDependsOnlyOnKeys(env1: Env, env2: Env, keys: seq<string>)
    requires forall k :: k in keys ==> (k in env1 <==> k in env2) && (k in env1 ==> env1[k] == env2[k])
    ensures MissingKeys(env1, keys) == MissingKeys(env2, keys)
    decreases |keys|
  {
    if keys != [] {
      assert keys[0] in keys;
      MissingKeysDependsOnlyOnKeys(env1, env2, keys[1..]);
    }
  }

  /** `validateConfig`: true exactly when no required key is unset, empty or the placeholder. */
  function ValidateConfig(env: Env): (ok: bool)
    ensures ok <==> forall k :: k in RequiredKeys ==> !Unusable(env, k)
  {
    var missing := MissingKeys(env, RequiredKeys);
    if |missing| > 0 then false else true
  }

  /** The required set is exactly the API key, the project id and the app id. */
  lemma ValidateConfigNamesThreeKeys(env: Env)
    ensures ValidateConfig(env) <==>
      !Unusable(env, ApiKeyVar) && !Unusable(env, ProjectIdVar) && !Unusable(env, AppIdVar)
  {
  }

  /** The placeholder is rejected for every required key, not only the API key. */
  lemma PlaceholderRejected(env: Env, key: string)
    requires key in RequiredKeys
    ensures !ValidateConfig(env[key := Placeholder])
  {
    assert Unusable(env[key := Placeholder], key);
  }

  /** Setting or unsetting the auth domain, storage bucket or sender id never changes the verdict. */
  lemma {:induction false} OptionalKeysNeverFail(env: Env, key: string, value: string)
    requires key in OptionalKeys
    ensures ValidateConfig(env[key := value]) == ValidateConfig(env)
    ensures ValidateConfig(env - {key}) == ValidateConfig(env)
  {
    assert key !in RequiredKeys;
    MissingKeysDependsOnlyOnKeys(env[key := value], env, RequiredKeys);
    MissingKeysDependsOnlyOnKeys(env - {key}, env, RequiredKeys);
  }

  /**
   * The apps `firebase/app` has initialised in this process (`getApps()`).
   * `initializeCalls` counts the calls of `initializeApp`.
   */
  class AppRegistry {
    var apps: seq<App>
    ghost var initializeCalls: nat

    ghost predicate Valid()
      reads this
    {
      initializeCalls == |apps|
    }

    constructor ()
      ensures Valid() && apps == [] && initializeCalls == 0
    {
      apps := [];
      initializeCalls := 0;
    }

    /** `initializeApp(config)`: creates the default app. */
    method InitializeApp(config: FirebaseConfig) returns (app: App)
      requires Valid()
      modifies this
      ensures Valid()
      ensures app == App(config) && apps == old(apps) + [app]
    {
      app := App(config);
      apps := apps + [app];
      initializeCalls := initializeCalls + 1;
    }

    /** `getApp()`: the default app, which exists when this is called. */
    method GetApp() returns (app: App)
      requires apps != []
      ensures app == apps[0]
    {
      app := apps[0];
    }
  }

  /** The exported module bindings `app` and `auth`, as evaluated at load time. */
  class FirebaseModule {
    var app: Option<App>
    var auth: Option<Auth>

    /**
     * Evaluating the module body: validate, then initialise a new app when
     * none exists yet, or reuse the existing one. With an invalid
     * configuration both bindings stay undefined.
     *
     * The environment is read two ways: the configuration object reads each
     * variable by its literal name (`staticEnv`), the validator by a computed
     * name (`lookupEnv`). A bundler that inlines only the literal reads can
     * make the two differ; they are kept apart here.
     */
    constructor Load(staticEnv: Env, lookupEnv: Env, registry: AppRegistry)
      requires registry.Valid()
      modifies registry
      ensures registry.Valid()
      ensures auth.Some? <==> ValidateConfig(lookupEnv)
      ensures app.Some? <==> ValidateConfig(lookupEnv)
      ensures auth.Some? ==> registry.apps != [] && app == Some(registry.apps[0]) && auth == Some(Auth(registry.apps[0]))
      ensures registry.apps ==
        if ValidateConfig(lookupEnv) && old(registry.apps) == [] then [App(ConfigFrom(staticEnv))] else old(registry.apps)
      ensures old(registry.initializeCalls) <= 1 ==> registry.initializeCalls <= 1
    {
      if ValidateConfig(lookupEnv) {
        var a: App;
        if |registry.apps| == 0 {
          a := registry.InitializeApp(ConfigFrom(staticEnv));
        } else {
          a := registry.GetApp();
        }
        app := Some(a);
        auth := Some(Auth(a));
      } else {
        app := None;
        auth := None;
      }
    }
  }
}
