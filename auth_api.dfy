/**
  The authentication gateway of src/api/api.ts: the mapping of provider
  errors onto the application's closed set of error codes, the projection
  of a provider user onto the application's User, and the API class whose
  methods sequence calls to the identity provider.

  The provider itself is not modelled: each method receives the outcome the
  provider settled with, and records the requests it issued in `calls`.
*/
module AuthApi {
  import opened Wrappers
  import opened Models

  // The error codes the API hands to its callers.
  const UserNotFound: string := "user-not-found"
  const InvalidCredentials: string := "invalid-credentials"
  const EmailAlreadyInUse: string := "email-already-in-use"
  const OperationFailed: string := "operation-failed"
  const SignOutFailed: string := "sign-out-failed"

  /** ApiErrorType; `createApiError(code, message)` is this datatype's constructor. */
  datatype ApiError = ApiError(code: string, message: string)

  /** The part of the provider's user object that the API reads. */
  datatype FirebaseUser = FirebaseUser(uid: string, email: Option<string>, displayName: Option<string>, photoURL: Option<string>)

  /**
    A provider error, read through the cast to AuthError. A missing code or
    message is represented by the empty string, which is falsy like undefined.
  */
  datatype AuthError = AuthError(code: string, message: string)

  /** What the listener passed to onAuthStateChanged is called with first. */
  datatype AuthNotification = StateChanged(user: Option<FirebaseUser>) | ListenerError(error: AuthError)

  /** A request the API issues to the identity provider. */
  datatype ProviderCall =
    | SignIn(email: string, password: string)
    | CreateUser(email: string, password: string)
    | UpdateProfile(uid: string, displayName: string)
    | SignOut
    | Subscribe
    | Unsubscribe
    | SendPasswordReset(email: string)

  /** The four codes that handleFirebaseError can produce. */
  predicate IsMappedCode(code: string) {
    code == UserNotFound || code == InvalidCredentials || code == EmailAlreadyInUse || code == OperationFailed
  }

  /** JavaScript's `message || fallback` on strings. */
  function FallbackMessage(message: string, fallback: string): (r: string)
    requires fallback != ""
    ensures r != ""
    ensures message != "" ==> r == message
    ensures message == "" ==> r == fallback
  {
    if message != "" then message else fallback
  }

  /** mapFirebaseUser: a field-for-field projection; the email is asserted present. */
  function MapFirebaseUser(u: FirebaseUser): (r: User)
    requires u.email.Some?
    ensures r.id == u.uid
    ensures Some(r.email) == u.email
    ensures r.displayName == u.displayName && r.photoURL == u.photoURL
  {
    User(u.uid, u.email.value, u.displayName, u.photoURL)
  }

  /** No field that mapFirebaseUser reads is dropped: equal Users come from equal provider users. */
  lemma MapFirebaseUserInjective(a: FirebaseUser, b: FirebaseUser)
    requires a.email.Some? && b.email.Some?
    requires MapFirebaseUser(a) == MapFirebaseUser(b)
    ensures a == b
  {
  }

  /**
    handleFirebaseError never returns normally; the model returns the error it
    throws, which is what `throw handleFirebaseError(error)` in a catch block
    rejects with. Every provider code lands in exactly one of four API codes.
  */
  function HandleFirebaseError(e: AuthError): (r: ApiError)
    ensures IsMappedCode(r.code)
    ensures r.message != ""
    ensures r.code == UserNotFound <==> e.code == "auth/user-not-found"
    ensures r.code == InvalidCredentials <==> e.code == "auth/wrong-password" || e.code == "auth/invalid-email"
    ensures r.code == EmailAlreadyInUse <==> e.code == "auth/email-already-in-use"
    ensures r.code == UserNotFound ==> r.message == "User not found"
    ensures r.code == InvalidCredentials ==> r.message == "Invalid email or password"
    ensures r.code == EmailAlreadyInUse ==> r.message == "Email is already in use"
    ensures r.code == OperationFailed ==> r.message == FallbackMessage(e.message, "Operation failed")
  {
    match e.code
    case "auth/user-not-found" => ApiError(UserNotFound, "User not found")
    case "auth/wrong-password" => ApiError(InvalidCredentials, "Invalid email or password")
    case "auth/invalid-email" => ApiError(InvalidCredentials, "Invalid email or password")
    case "auth/email-already-in-use" => ApiError(EmailAlreadyInUse, "Email is already in use")
    case _ => ApiError(OperationFailed, FallbackMessage(e.message, "Operation failed"))
  }

  /** A wrong password and a malformed email are indistinguishable to the caller. */
  lemma InvalidCredentialsIndistinguishable(e1: AuthError, e2: AuthError)
    requires e1.code in {"auth/wrong-password", "auth/invalid-email"}
    requires e2.code in {"auth/wrong-password", "auth/invalid-email"}
    ensures HandleFirebaseError(e1) == HandleFirebaseError(e2)
  {
  }

  /** For every recognised code the provider's own message is dropped. */
  lemma RecognisedCodesIgnoreProviderMessage(e1: AuthError, e2: AuthError)
    requires e1.code == e2.code
    requires e1.code in {"auth/user-not-found", "auth/wrong-password", "auth/invalid-email", "auth/email-already-in-use"}
    ensures HandleFirebaseError(e1) == HandleFirebaseError(e2)
  {
  }

  /**
    How `login` and `register` settle, given how the provider's sign-in or
    account-creation call settled: with the mapped user, or with the error
    passed through handleFirebaseError.
  */
  function UserOrMappedError(outcome: Result<FirebaseUser, AuthError>): (r: Result<User, ApiError>)
    requires outcome.Ok? ==> outcome.value.email.Some?
    ensures r.Ok? <==> outcome.Ok?
    ensures r.Ok? ==> r.value == MapFirebaseUser(outcome.value)
    ensures r.Err? ==> r.error == HandleFirebaseError(outcome.error) && IsMappedCode(r.error.code)
  {
    match outcome
    case Ok(u) => Ok(MapFirebaseUser(u))
    case Err(e) => Err(HandleFirebaseError(e))
  }

  /** `if (displayName)`: the profile update runs only for a present, non-empty name. */
  predicate WantsProfileUpdate(displayName: Option<string>) {
    displayName.Some? && displayName.value != ""
  }

  /** The provider requests `register` issues, given how account creation settled. */
  function RegisterCalls(creds: RegisterCredentials, create: Result<FirebaseUser, AuthError>): (r: seq<ProviderCall>)
    ensures 1 <= |r| <= 2
    ensures r[0] == CreateUser(creds.email, creds.password)
    ensures |r| == 2 <==> create.Ok? && WantsProfileUpdate(creds.displayName)
    ensures |r| == 2 ==> r[1] == UpdateProfile(create.value.uid, creds.displayName.value)
  {
    [CreateUser(creds.email, creds.password)]
      + if create.Ok? && WantsProfileUpdate(creds.displayName)
        then [UpdateProfile(create.value.uid, creds.displayName.value)]
        else []
  }

  /** The result of `logout`: every sign-out failure becomes sign-out-failed. */
  function LogoutResult(signOut: Outcome<AuthError>): (r: Outcome<ApiError>)
    ensures r.Fail? <==> signOut.Fail?
    ensures r.Fail? ==> r.error.code == SignOutFailed && !IsMappedCode(r.error.code)
    ensures r.Fail? ==> r.error.message != ""
    ensures r.Fail? && signOut.error.message != "" ==> r.error.message == signOut.error.message
    ensures r.Fail? && signOut.error.message == "" ==> r.error.message == "Failed to sign out"
  {
    match signOut
    case Pass => Pass
    case Fail(e) => Fail(ApiError(SignOutFailed, FallbackMessage(e.message, "Failed to sign out")))
  }

  /** The state the promise returned by `requireUser` ends in. */
  datatype Settlement = Resolved(user: User) | Rejected(error: ApiError) | NeverSettles

  /**
    How `requireUser` settles as written, given the listener's first
    notification. On a listener error the callback evaluates
    `reject(handleFirebaseError(error))`: handleFirebaseError throws while the
    argument is evaluated, so `reject` is never called, the throw escapes into
    the provider's callback, and the promise stays pending.
  */
  function RequireUserSettlement(n: AuthNotification): (r: Settlement)
    requires n.StateChanged? && n.user.Some? ==> n.user.value.email.Some?
    ensures r.Resolved? <==> n.StateChanged? && n.user.Some?
    ensures r.Resolved? ==> r.user == MapFirebaseUser(n.user.value)
    ensures n == StateChanged(None) ==> r == Rejected(ApiError(UserNotFound, "No user is currently signed in"))
    ensures r.NeverSettles? <==> n.ListenerError?
  {
    match n
    case StateChanged(Some(u)) => Resolved(MapFirebaseUser(u))
    case StateChanged(None) => Rejected(ApiError(UserNotFound, "No user is currently signed in"))
    case ListenerError(_) => NeverSettles
  }

  /**
    How `requireUser` settles when the error callback rejects with the mapped
    error, as its code evidently intends: the promise always settles, and every
    rejection carries a code the rest of the application knows.
  */
  function RequireUserIntendedSettlement(n: AuthNotification): (r: Settlement)
    requires n.StateChanged? && n.user.Some? ==> n.user.value.email.Some?
    ensures !r.NeverSettles?
    ensures r.Resolved? <==> n.StateChanged? && n.user.Some?
    ensures r.Resolved? ==> r.user == MapFirebaseUser(n.user.value)
    ensures r.Rejected? ==> IsMappedCode(r.error.code)
    ensures n.ListenerError? ==> r == Rejected(HandleFirebaseError(n.error))
  {
    match n
    case StateChanged(Some(u)) => Resolved(MapFirebaseUser(u))
    case StateChanged(None) => Rejected(ApiError(UserNotFound, "No user is currently signed in"))
    case ListenerError(e) => Rejected(HandleFirebaseError(e))
  }

  /** The two agree on every notification except a listener error, where the code as written hangs. */
  lemma RequireUserHangsOnListenerError(n: AuthNotification)
    requires n.StateChanged? && n.user.Some? ==> n.user.value.email.Some?
    ensures n.StateChanged? ==> RequireUserSettlement(n) == RequireUserIntendedSettlement(n)
    ensures n.ListenerError? ==> RequireUserSettlement(n) == NeverSettles && RequireUserIntendedSettlement(n).Rejected?
  {
  }

  /** The result of `sendPasswordResetEmail`: failures go through the same mapping. */
  function PasswordResetResult(send: Outcome<AuthError>): (r: Outcome<ApiError>)
    ensures r.Fail? <==> send.Fail?
    ensures r.Fail? ==> r.error == HandleFirebaseError(send.error) && IsMappedCode(r.error.code)
  {
    match send
    case Pass => Pass
    case Fail(e) => Fail(HandleFirebaseError(e))
  }

  /** Because reset failures share the mapping, an unknown address is reported as such. */
  lemma PasswordResetReportsUnknownUser(e: AuthError)
    requires e.code == "auth/user-not-found"
    ensures PasswordResetResult(Fail(e)) == Fail(ApiError(UserNotFound, "User not found"))
  {
  }

  /** How many times `c` occurs in `calls`. */
  function Count(calls: seq<ProviderCall>, c: ProviderCall): nat {
    if calls == [] then 0 else (if calls[0] == c then 1 else 0) + Count(calls[1..], c)
  }

  lemma {:induction false} CountAppend(a: seq<ProviderCall>, b: seq<ProviderCall>, c: ProviderCall)
    ensures Count(a + b, c) == Count(a, c) + Count(b, c)
  {
    if a == [] {
      assert a + b == b;
    } else {
      assert (a + b)[1..] == a[1..] + b;
      CountAppend(a[1..], b, c);
    }
  }

  /** Listeners registered with onAuthStateChanged and not yet unsubscribed. */
  function OpenListeners(calls: seq<ProviderCall>): int {
    Count(calls, Subscribe) - Count(calls, Unsubscribe)
  }

  /** Appending requests adds their open listeners to the ones already open. */
  lemma OpenListenersAppend(a: seq<ProviderCall>, b: seq<ProviderCall>)
    ensures OpenListeners(a + b) == OpenListeners(a) + OpenListeners(b)
  {
    CountAppend(a, b, Subscribe);
    CountAppend(a, b, Unsubscribe);
  }

  /** Every API operation other than requireUser registers no listener at all. */
  lemma NoListenerCalls(calls: seq<ProviderCall>)
    requires forall i :: 0 <= i < |calls| ==> !calls[i].Subscribe? && !calls[i].Unsubscribe?
    ensures OpenListeners(calls) == 0
  {
    if calls != [] {
      NoListenerCalls(calls[1..]);
    }
  }

  /** class API: one instance per application, bound to the provider's auth handle. */
  class Api {
    /** The requests this instance has issued to the identity provider, in order. */
    var calls: seq<ProviderCall>

    /** App, auth and database initialisation are not modelled; no request is issued. */
    constructor ()
      ensures calls == []
    {
      calls := [];
    }

    method Login(creds: LoginCredentials, signIn: Result<FirebaseUser, AuthError>) returns (r: Result<User, ApiError>)
      requires signIn.Ok? ==> signIn.value.email.Some?
      modifies this
      ensures calls == old(calls) + [SignIn(creds.email, creds.password)]
      ensures OpenListeners(calls) == OpenListeners(old(calls))
      ensures r == UserOrMappedError(signIn)
    {
      NoListenerCalls([SignIn(creds.email, creds.password)]);
      OpenListenersAppend(calls, [SignIn(creds.email, creds.password)]);
      calls := calls + [SignIn(creds.email, creds.password)];
      if signIn.Ok? {
        r := Ok(MapFirebaseUser(signIn.value));
      } else {
        r := Err(HandleFirebaseError(signIn.error));
      }
    }

    /**
      `create` is how createUserWithEmailAndPassword settled, `update` how
      updateProfile settled (consulted only when the update is attempted).
      The result depends on `create` alone: a failed profile update does not
      fail registration, and only a creation failure is mapped.
    */
    method Register(creds: RegisterCredentials, create: Result<FirebaseUser, AuthError>, update: Outcome<AuthError>)
      returns (r: Result<User, ApiError>)
      requires create.Ok? ==> create.value.email.Some?
      modifies this
      ensures calls == old(calls) + RegisterCalls(creds, create)
      ensures OpenListeners(calls) == OpenListeners(old(calls))
      ensures r == UserOrMappedError(create)
    {
      ghost var before := calls;
      calls := calls + [CreateUser(creds.email, creds.password)];
      if create.Err? {
        r := Err(HandleFirebaseError(create.error));
      } else {
        var user := create.value;
        if creds.displayName.Some? && creds.displayName.value != "" {
          calls := calls + [UpdateProfile(user.uid, creds.displayName.value)];
          if update.Fail? {
            // The failure is only logged; registration still succeeds.
          }
        }
        r := Ok(MapFirebaseUser(user));
      }
      NoListenerCalls(RegisterCalls(creds, create));
      OpenListenersAppend(before, RegisterCalls(creds, create));
    }

    method Logout(signOut: Outcome<AuthError>) returns (r: Outcome<ApiError>)
      modifies this
      ensures calls == old(calls) + [SignOut]
      ensures OpenListeners(calls) == OpenListeners(old(calls))
      ensures r == LogoutResult(signOut)
    {
      OpenListenersAppend(calls, [SignOut]);
      calls := calls + [SignOut];
      if signOut.Fail? {
        r := Fail(ApiError(SignOutFailed, FallbackMessage(signOut.error.message, "Failed to sign out")));
      } else {
        r := Pass;
      }
    }

    /**
      Listen once: register a listener, and on its first notification
      unsubscribe on every path, then settle (or, on a listener error, fail to).
    */
    method RequireUser(n: AuthNotification) returns (r: Settlement)
      requires n.StateChanged? && n.user.Some? ==> n.user.value.email.Some?
      modifies this
      ensures calls == old(calls) + [Subscribe, Unsubscribe]
      ensures OpenListeners(calls) == OpenListeners(old(calls))
      ensures r == RequireUserSettlement(n)
    {
      OpenListenersAppend(calls, [Subscribe]);
      calls := calls + [Subscribe];
      assert OpenListeners(calls) == OpenListeners(old(calls)) + 1;
      match n {
        case StateChanged(user) =>
          OpenListenersAppend(calls, [Unsubscribe]);
          calls := calls + [Unsubscribe];
          if user.Some? {
            r := Resolved(MapFirebaseUser(user.value));
          } else {
            r := Rejected(ApiError(UserNotFound, "No user is currently signed in"));
          }
        case ListenerError(_) =>
          OpenListenersAppend(calls, [Unsubscribe]);
          calls := calls + [Unsubscribe];
          // handleFirebaseError throws before reject is reached.
          r := NeverSettles;
      }
    }

    method SendPasswordResetEmail(email: string, send: Outcome<AuthError>) returns (r: Outcome<ApiError>)
      modifies this
      ensures calls == old(calls) + [SendPasswordReset(email)]
      ensures OpenListeners(calls) == OpenListeners(old(calls))
      ensures r == PasswordResetResult(send)
    {
      NoListenerCalls([SendPasswordReset(email)]);
      OpenListenersAppend(calls, [SendPasswordReset(email)]);
      calls := calls + [SendPasswordReset(email)];
      if send.Fail? {
        r := Fail(HandleFirebaseError(send.error));
      } else {
        r := Pass;
      }
    }
  }
}
