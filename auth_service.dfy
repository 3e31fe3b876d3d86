/**
 * The gateway over Firebase Auth. Each operation checks that Auth was
 * initialised, then makes its provider calls, and translates every provider
 * failure into a user-facing (Spanish) message before rethrowing it.
 *
 * The provider calls are not executed here: each is represented by the
 * outcome it would have (`Outcome`), passed in as a parameter, and each
 * operation reports the calls it makes (`Run.calls`) beside its result.
 */
module AuthService {
  import opened Wrappers
  import opened Firebase

  /** A Firebase user; opaque apart from these fields. */
  datatype User = User(uid: string, email: Option<string>, displayName: Option<string>)

  datatype SignUpData = SignUpData(email: string, password: string, displayName: string)
  datatype SignInData = SignInData(email: string, password: string)

  /** A rejection raised by the provider; an absent `code` or `message` is the empty string. */
  datatype FirebaseError = FirebaseError(code: string, message: string)

  /** How a provider call settles. */
  datatype Outcome<+T> = Resolved(value: T) | Rejected(error: FirebaseError)

  /** The `Error` a gateway operation throws. */
  datatype Error = Error(message: string)

  datatype Result<+T> = Ok(value: T) | Fail(error: Error)

  /** The provider calls the gateway makes, with their arguments. */
  datatype ProviderCall =
    | CreateUserWithEmailAndPassword(email: string, password: string)
    | UpdateProfile(user: User, displayName: string)
    | SignInWithEmailAndPassword(email: string, password: string)
    | SignOutCall

  /** A gateway operation's result together with the provider calls it made, in order. */
  datatype Run<+T> = Run(result: Result<T>, calls: seq<ProviderCall>)

  const NotInitializedMessage := "Firebase Auth is not initialized"
  /** The guard's error, thrown without translation. */
  const NotInitializedError := Error(NotInitializedMessage)
  const GenericMessage := "Ha ocurrido un error. Por favor, intenta de nuevo."

  const EmailAlreadyInUse := "auth/email-already-in-use"
  const InvalidEmail := "auth/invalid-email"
  const OperationNotAllowed := "auth/operation-not-allowed"
  const WeakPassword := "auth/weak-password"
  const UserDisabled := "auth/user-disabled"
  const UserNotFound := "auth/user-not-found"
  const WrongPassword := "auth/wrong-password"
  const TooManyRequests := "auth/too-many-requests"
  const NetworkRequestFailed := "auth/network-request-failed"

  /** The codes the gateway recognises, in the order it tests them. */
  const RecognisedCodes: seq<string> := [
    EmailAlreadyInUse, InvalidEmail, OperationNotAllowed, WeakPassword, UserDisabled,
    UserNotFound, WrongPassword, TooManyRequests, NetworkRequestFailed]

  /** The fixed message of each recognised code. */
  const MessageTable: map<string, string> := map[
    EmailAlreadyInUse := "Este correo electrónico ya está en uso.",
    InvalidEmail := "El correo electrónico no es válido.",
    OperationNotAllowed := "Operación no permitida.",
    WeakPassword := "La contraseña es muy débil. Debe tener al menos 6 caracteres.",
    UserDisabled := "Esta cuenta ha sido deshabilitada.",
    UserNotFound := "No se encontró ninguna cuenta con este correo electrónico.",
    WrongPassword := "Contraseña incorrecta.",
    TooManyRequests := "Demasiados intentos fallidos. Por favor, intenta más tarde.",
    NetworkRequestFailed := "Error de conexión. Verifica tu conexión a internet."]

  /**
   * `handleAuthError`: a recognised code gets its fixed message whatever the
   * error's own message; any other code keeps the error's message, or the
   * generic one when that is empty. The message is never empty.
   */
  function HandleAuthError(error: FirebaseError): (e: Error)
    ensures error.code in MessageTable ==> e.message == MessageTable[error.code]
    ensures error.code !in MessageTable ==>
      e.message == if error.message != "" then error.message else GenericMessage
    ensures e.message != ""
  {
    var code := error.code;
    if code == EmailAlreadyInUse then Error("Este correo electrónico ya está en uso.")
    else if code == InvalidEmail then Error("El correo electrónico no es válido.")
    else if code == OperationNotAllowed then Error("Operación no permitida.")
    else if code == WeakPassword then Error("La contraseña es muy débil. Debe tener al menos 6 caracteres.")
    else if code == UserDisabled then Error("Esta cuenta ha sido deshabilitada.")
    else if code == UserNotFound then Error("No se encontró ninguna cuenta con este correo electrónico.")
    else if code == WrongPassword then Error("Contraseña incorrecta.")
    else if code == TooManyRequests then Error("Demasiados intentos fallidos. Por favor, intenta más tarde.")
    else if code == NetworkRequestFailed then Error("Error de conexión. Verifica tu conexión a internet.")
    else if error.message != "" then Error(error.message)
    else Error(GenericMessage)
  }

  /** The table has exactly the nine recognised codes. */
  lemma RecognisedCodesAreTheTable()
    ensures forall c :: c in MessageTable <==> c in RecognisedCodes
    ensures |RecognisedCodes| == 9
  {
  }

  /** A recognised code's message does not depend on the error's own message. */
  lemma RecognisedMessageIgnoresErrorMessage(code: string, m1: string, m2: string)
    requires code in RecognisedCodes
    ensures HandleAuthError(FirebaseError(code, m1)) == HandleAuthError(FirebaseError(code, m2))
    ensures HandleAuthError(FirebaseError(code, m1)).message != GenericMessage
  {
    RecognisedCodesAreTheTable();
  }

  /** The nine recognised codes get pairwise distinct messages. */
  lemma RecognisedMessagesDistinct(c1: string, c2: string, m: string)
    requires c1 in RecognisedCodes && c2 in RecognisedCodes && c1 != c2
    ensures HandleAuthError(FirebaseError(c1, m)).message != HandleAuthError(FirebaseError(c2, m)).message
  {
    RecognisedCodesAreTheTable();
    TableMessagesDistinct(c1, c2);
  }

  /** No two codes of the table share a message. */
  lemma TableMessagesDistinct(c1: string, c2: string)
    requires c1 in MessageTable && c2 in MessageTable && c1 != c2
    ensures MessageTable[c1] != MessageTable[c2]
  {
    // the nine messages have nine different lengths
    assert |MessageTable[EmailAlreadyInUse]| == 39;
    assert |MessageTable[InvalidEmail]| == 35;
    assert |MessageTable[OperationNotAllowed]| == 23;
    assert |MessageTable[WeakPassword]| == 61;
    assert |MessageTable[UserDisabled]| == 34;
    assert |MessageTable[UserNotFound]| == 58;
    assert |MessageTable[WrongPassword]| == 22;
    assert |MessageTable[TooManyRequests]| == 59;
    assert |MessageTable[NetworkRequestFailed]| == 51;
    assert |MessageTable[c1]| != |MessageTable[c2]|;
  }

  /** The `catch` clause: a rejection is rethrown only after translation. */
  function Translate<T>(outcome: Outcome<T>): (r: Result<T>)
    ensures outcome.Resolved? <==> r.Ok?
    ensures r.Ok? ==> r.value == outcome.value
    ensures r.Fail? ==> r.error == HandleAuthError(outcome.error) && r.error.message != ""
  {
    match outcome
    case Resolved(v) => Ok(v)
    case Rejected(e) => Fail(HandleAuthError(e))
  }

  /**
   * `signUp`: create the account; when the provider returns a user, set its
   * display name; return that same user. `create` and `update` are the
   * outcomes the two provider calls would have.
   */
  function SignUp(auth: Option<Auth>, data: SignUpData, create: Outcome<Option<User>>, update: Outcome<()>)
    : (r: Run<Option<User>>)
    ensures auth.None? ==> r.calls == [] && r.result == Fail(NotInitializedError)
    ensures auth.Some? ==>
      r.calls == [CreateUserWithEmailAndPassword(data.email, data.password)] +
        (if create.Resolved? && create.value.Some? then [UpdateProfile(create.value.value, data.displayName)] else [])
    ensures r.result.Ok? <==> auth.Some? && create.Resolved? && (create.value.Some? ==> update.Resolved?)
    ensures r.result.Ok? ==> r.result.value == create.value
    ensures auth.Some? && create.Rejected? ==> r.result == Fail(HandleAuthError(create.error))
    ensures auth.Some? && create.Resolved? && update.Rejected? && create.value.Some? ==>
      r.result == Fail(HandleAuthError(update.error))
  {
    if auth.None? then Run(Fail(NotInitializedError), [])
    else
      var createCall := CreateUserWithEmailAndPassword(data.email, data.password);
      match Translate(create)
      case Fail(e) => Run(Fail(e), [createCall])
      case Ok(user) =>
        if user.None? then Run(Ok(user), [createCall])
        else
          var updateCall := UpdateProfile(user.value, data.displayName);
          match Translate(update)
          case Fail(e) => Run(Fail(e), [createCall, updateCall])
          case Ok(_) => Run(Ok(user), [createCall, updateCall])
  }

  /** `signIn`: one provider call; its user is returned, its failure translated. */
  function SignIn(auth: Option<Auth>, data: SignInData, outcome: Outcome<Option<User>>): (r: Run<Option<User>>)
    ensures auth.None? ==> r.calls == [] && r.result == Fail(NotInitializedError)
    ensures auth.Some? ==> r.calls == [SignInWithEmailAndPassword(data.email, data.password)]
    ensures r.result.Ok? <==> auth.Some? && outcome.Resolved?
    ensures r.result.Ok? ==> r.result.value == outcome.value
    ensures auth.Some? && outcome.Rejected? ==> r.result == Fail(HandleAuthError(outcome.error))
  {
    if auth.None? then Run(Fail(NotInitializedError), [])
    else Run(Translate(outcome), [SignInWithEmailAndPassword(data.email, data.password)])
  }

  /** `signOut`: one provider call; its failure translated. */
  function SignOut(auth: Option<Auth>, outcome: Outcome<()>): (r: Run<()>)
    ensures auth.None? ==> r.calls == [] && r.result == Fail(NotInitializedError)
    ensures auth.Some? ==> r.calls == [SignOutCall]
    ensures r.result.Ok? <==> auth.Some? && outcome.Resolved?
    ensures auth.Some? && outcome.Rejected? ==> r.result == Fail(HandleAuthError(outcome.error))
  {
    if auth.None? then Run(Fail(NotInitializedError), [])
    else Run(Translate(outcome), [SignOutCall])
  }

  /**
   * No raw provider error escapes: every failure of the three operations is
   * the guard's message or the translation of the provider's rejection, and
   * carries a non-empty message.
   */
  lemma NoRawErrorEscapes(auth: Option<Auth>, up: SignUpData, create: Outcome<Option<User>>, update: Outcome<()>,
                          inData: SignInData, signIn: Outcome<Option<User>>, signOut: Outcome<()>)
    ensures var r := SignUp(auth, up, create, update).result;
      r.Fail? ==>
        r.error.message != "" &&
        (r.error == NotInitializedError ||
         (create.Rejected? && r.error == HandleAuthError(create.error)) ||
         (update.Rejected? && r.error == HandleAuthError(update.error)))
    ensures var r := SignIn(auth, inData, signIn).result;
      r.Fail? ==>
        r.error.message != "" &&
        (r.error == NotInitializedError || (signIn.Rejected? && r.error == HandleAuthError(signIn.error)))
    ensures var r := SignOut(auth, signOut).result;
      r.Fail? ==>
        r.error.message != "" &&
        (r.error == NotInitializedError || (signOut.Rejected? && r.error == HandleAuthError(signOut.error)))
  {
  }

  /** An unsubscribe handle: the provider's detaching one, or one that does nothing. */
  datatype Unsubscribe = NoOp | Detach(listener: nat)

  /**
   * What subscribing does: the event the callback receives synchronously, if any,
   * whether it stays registered with the provider for later events, and the
   * handle returned.
   */
  datatype Subscription = Subscription(firedNow: Option<Option<User>>, registered: bool, unsubscribe: Unsubscribe)

  /**
   * `onAuthStateChanged`: without Auth the callback is fired once with `null`
   * and a handle that does nothing is returned; otherwise the subscription is
   * the provider's own, whose handle is `Detach(listener)`.
   */
  function OnAuthStateChanged(auth: Option<Auth>, listener: nat): (s: Subscription)
    ensures auth.None? ==> s.firedNow == Some(None) && !s.registered && s.unsubscribe == NoOp
    ensures auth.Some? ==> s.firedNow == None && s.registered && s.unsubscribe == Detach(listener)
  {
    if auth.None? then Subscription(Some(None), false, NoOp)
    else Subscription(None, true, Detach(listener))
  }
}
