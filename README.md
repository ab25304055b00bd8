# Authentication front end: a Dafny model

This project models the logic of a small browser front end for a Firebase-backed login page. The parts modelled are:

- **The authentication API (`src/api/api.ts`).** The mapping of provider error codes onto the application's closed set of API error codes. The projection of a provider user onto the application's `User`. The `API` methods `login`, `register`, `logout`, `requireUser` and `sendPasswordResetEmail`, each sequencing requests to the identity provider.
- **The lazy API cache (`src/api/index.ts`).** `getAPI` and the module variable that holds the one instance.
- **The login/signup page (`src/views/Home.tsx`).** The login and signup validation schemas, and the choice between them by the active tab. The submit handler: it builds credentials, derives the display name from the email, calls the API, and drives the loading flag and the toasts.

The identity provider (Firebase Auth) is not modelled. Each API method receives the outcome the provider settled with, as a parameter. For example, `Login` receives how `signInWithEmailAndPassword` settled. The `Api` class records the requests it issued in its field `calls`. A listener registered with `onAuthStateChanged` and not yet unsubscribed counts as open. `OpenListeners` counts those, and every method leaves the count unchanged.

Asynchronous functions are modelled as sequential methods. A rejected promise is an `Err`/`Fail` value; for `requireUser`, whose promise can also stay pending, the result is a `Settlement`: resolved, rejected, or never settling. `createApiError` is the constructor of the `ApiError` datatype. A missing provider code or message is represented by the empty string, which is falsy in JavaScript just like `undefined`.

Modules: `Wrappers` (Option, Result, Outcome), `Models` (`src/models/user.ts`), `AuthApi` (`src/api/api.ts`), `ApiLoader` (`src/api/index.ts`) and `Home` (`src/views/Home.tsx`).

Some facts about the code that a reader might not expect:

- There is no separate malformed-email error. `auth/invalid-email` maps to `invalid-credentials`, the same as `auth/wrong-password`.
- A sign-out failure has the code `sign-out-failed`, not `operation-failed`.
- A password-reset failure goes through the same mapping as every other error. So an unknown address is reported as `user-not-found` (`PasswordResetReportsUnknownUser`).
- When the listener of `requireUser` reports an error, the returned promise never settles (see "## Findings").
- There is no route guard. `src/App.tsx` declares only the `/` route, with no loader or redirect.

## Model

| member | source | states |
|---|---|---|
| `AuthApi.FallbackMessage` | src/api/api.ts:55-58 | `message \|\| fallback`: the provider's message when it is non-empty, otherwise the non-empty fallback; never empty |
| `AuthApi.MapFirebaseUser` | src/api/api.ts:36-41 | requires the provider user's email to be present; `id` is the provider `uid`; email, displayName and photoURL are copied unchanged |
| `AuthApi.MapFirebaseUserInjective` | src/api/api.ts:36-41 | no field that `mapFirebaseUser` reads is dropped: provider users with emails whose `User`s are equal agree on uid, email, displayName and photoURL, the only fields of the provider user modelled here |
| `AuthApi.HandleFirebaseError` | src/api/api.ts:43-59 | the thrown code is always one of the four mapped codes, and its message is never empty; `user-not-found` iff the provider code was `auth/user-not-found`; `invalid-credentials` iff it was `auth/wrong-password` or `auth/invalid-email`; `email-already-in-use` iff `auth/email-already-in-use`; each of these three carries its fixed message; `operation-failed` carries the provider message or "Operation failed" |
| `AuthApi.InvalidCredentialsIndistinguishable` | src/api/api.ts:49-51 | a wrong password and a malformed email produce the identical API error, whatever the provider's messages |
| `AuthApi.RecognisedCodesIgnoreProviderMessage` | src/api/api.ts:46-53 | for the four recognised provider codes the result depends on the code alone, never on the provider's message |
| `AuthApi.UserOrMappedError` | src/api/api.ts:89-130 | `login` and `register` succeed iff the provider's sign-in or account-creation call succeeds, with the mapped user; any failure of that call is passed through `handleFirebaseError`, so its code is a mapped one |
| `AuthApi.RegisterCalls` | src/api/api.ts:107-124 | account creation is always requested first; a profile update for the created uid follows iff creation succeeded and the display name is present and non-empty |
| `AuthApi.LogoutResult` | src/api/api.ts:132-142 | logout fails iff sign-out fails, always with code `sign-out-failed` (not a mapped code), with the provider's message or "Failed to sign out" |
| `AuthApi.RequireUserSettlement` | src/api/api.ts:144-164 | as written: resolves iff the first notification carries a user, with that user mapped; no user rejects with `user-not-found` and "No user is currently signed in"; the promise never settles exactly when the listener reports an error, because `handleFirebaseError` throws before `reject` is called |
| `AuthApi.RequireUserIntendedSettlement` | src/api/api.ts:158-161 | with the error callback rejecting with the mapped error: the promise always settles; it resolves iff a user is present; a listener error rejects with `handleFirebaseError` of it |
| `AuthApi.RequireUserHangsOnListenerError` | src/api/api.ts:158-161 | the code as written and the intended version agree on every state notification; on a listener error the first never settles while the second rejects |
| `AuthApi.PasswordResetResult` | src/api/api.ts:166-172 | the reset fails iff the provider call fails, with the error mapped by `handleFirebaseError` |
| `AuthApi.PasswordResetReportsUnknownUser` | src/api/api.ts:166-172 | every reset failure with provider code `auth/user-not-found`, whatever its message, rejects with `user-not-found` / "User not found" |
| `AuthApi.OpenListenersAppend` | src/api/api.ts:146-162 | open listeners add up over concatenated request sequences |
| `AuthApi.Api.constructor` | src/api/api.ts:76-87 | a new instance has issued no requests |
| `AuthApi.Api.Login` | src/api/api.ts:89-100 | issues exactly one sign-in request with the given email and password; settles with `UserOrMappedError` of the sign-in outcome; no listener is left open |
| `AuthApi.Api.Register` | src/api/api.ts:102-130 | issues exactly the requests of `RegisterCalls`; settles with `UserOrMappedError` of the account-creation outcome alone, so a failed profile update does not fail registration and returns the created user |
| `AuthApi.Api.Logout` | src/api/api.ts:132-142 | issues one sign-out request and settles with `LogoutResult` |
| `AuthApi.Api.RequireUser` | src/api/api.ts:144-164 | registers one listener and unsubscribes it on every path (user present, user absent, listener error); the result is `RequireUserSettlement`, so a listener error leaves the promise pending; the number of open listeners is unchanged |
| `AuthApi.Api.SendPasswordResetEmail` | src/api/api.ts:166-172 | issues one reset request for the given email and settles with `PasswordResetResult` |
| `ApiLoader.ApiCache.constructor` | src/api/index.ts:6 | the cache starts empty, with no instance created and no load attempted |
| `ApiLoader.ApiCache.GetApi` | src/api/index.ts:8-20 | a cached instance is returned unchanged, with no load attempted; otherwise one load is attempted; on success a fresh instance is created, cached and returned; on failure null is returned and the cache stays empty; an instance is cached exactly when one has been created, so at most one ever is |
| `ApiLoader.GetApiTwice` | src/api/index.ts:6-20 | two calls in sequence on an empty cache: the first returns an instance iff its load succeeds; after a first success the second call returns the same instance without loading again; after a first failure the second call loads again and succeeds iff its load does |
| `Home.Utf16Length` | src/views/Home.tsx:23 | a string's JavaScript `length`: between its number of characters and twice that, and equal to it when every character is in the Basic Multilingual Plane |
| `Home.ThreeAstralCharactersHaveLengthSix` | src/views/Home.tsx:23 | three characters above U+FFFF have length 6, so they meet the minimum password length |
| `Home.LoginIssues` | src/views/Home.tsx:15-18 | the login form is accepted iff the email is well-formed and the password is non-empty; an empty password is reported as "Password is required"; no issue is ever reported on the confirmation field |
| `Home.SignupIssues` | src/views/Home.tsx:20-29 | the signup form is accepted iff the email is well-formed, the password's JavaScript length (UTF-16 code units) is at least 6, and the confirmation is non-empty and equal to it; a mismatch is reported on `confirmPassword` with "Passwords don't match" exactly when the two differ |
| `Home.ShortMismatchedSignup` | src/views/Home.tsx:20-29 | password "abc" with confirmation "xyz" gives exactly two issues: the password is too short, and the passwords don't match |
| `Home.SignupAcceptedIsLoginAccepted` | src/views/Home.tsx:15-29 | every form the signup schema accepts, the login schema accepts too |
| `Home.ResolverIssues` | src/views/Home.tsx:44-48 | on the "login" tab a form is accepted iff the login rules hold; on any other tab iff the signup rules hold, with a mismatch reported on `confirmPassword` |
| `Home.ShortMismatchedSignupRejected` | src/views/Home.tsx:20-29 | on the signup tab, password "abc" with confirmation "xyz" is rejected whatever the email check says |
| `Home.EmailLocalPart` | src/views/Home.tsx:67 | `email.split("@")[0]` is a prefix of the email, contains no '@', and is followed by '@' unless it is the whole email |
| `Home.EmailLocalPartUnique` | src/views/Home.tsx:67 | those three properties determine the derived display name |
| `Home.EmailLocalPartWithoutAt` | src/views/Home.tsx:67 | an email without '@' is used whole |
| `Home.SubmitRequest` | src/views/Home.tsx:56-68 | the login tab sends exactly the email and password; any other tab registers them with the display name derived from the email; the confirmation is not sent |
| `Home.LeadingAtSkipsProfileUpdate` | src/views/Home.tsx:67 | an email starting with '@' registers an empty display name, so no profile update is requested |
| `Home.SubmitResult` | src/views/Home.tsx:56-71 | every API error that can reach the submit handler has a mapped code and a non-empty message |
| `Home.ErrorText` | src/views/Home.tsx:72-74 | the error toast shows the error's message when it is non-empty, and "An error occurred" when it is empty |
| `Home.SubmitEffects` | src/views/Home.tsx:50-78 | once the API is available: loading is set on, the request is made, exactly one success or error toast follows (success iff the call succeeded), and loading is set off; the error toast always shows the API error's own message, so the generic fallback is never reached |
| `Home.SubmitCalls` | src/views/Home.tsx:56-71 | login issues one sign-in request with the form's email and password; signup starts with the account-creation request |
| `Home.HomeView.constructor` | src/views/Home.tsx:36-37 | the page starts on the "login" tab with loading off |
| `Home.HomeView.SelectTab` | src/views/Home.tsx:206-209 | changing tabs sets the active tab |
| `Home.HomeView.OnSubmit` | src/views/Home.tsx:50-78 | if `getAPI` yields null, nothing happens: the flag and the effects are untouched; otherwise the effects are `SubmitEffects` for the active tab, loading ends off on success and on failure, and the API instance issues `SubmitCalls`; an instance already cached stays the cached one, and on an empty cache a fresh instance is cached iff the load succeeds |
| `Home.HomeView.HandleSubmit` | src/views/Home.tsx:44-48 | `handleSubmit(onSubmit)`: a form the active tab's rules reject changes nothing (no effect, no load, no API request); an accepted form runs `OnSubmit`; in both cases an instance already cached stays the cached one, and for an accepted form on an empty cache a fresh instance is cached iff the load succeeds |
| `Home.SubmitShortMismatchedSignup` | src/views/Home.tsx:20-29 | submitting password "abc" and confirmation "xyz" on the signup tab never calls the API and leaves the page unchanged: the active tab, the effects, the loading flag, the cached instance and its requests |

## Findings

| source | as written | input that shows it | evidently intended | confidence | as-written member | corrected member |
|---|---|---|---|---|---|---|
| src/api/api.ts:158-161 | the error callback calls `reject(handleFirebaseError(error))`, but `handleFirebaseError` always throws, so `reject` is never reached and the `requireUser` promise stays pending | the listener's error callback runs with any error, e.g. code `auth/network-request-failed` | `requireUser` rejects with the mapped error, e.g. by catching it or by making `handleFirebaseError` return the error | high (not executed) | `AuthApi.RequireUserSettlement` | `AuthApi.RequireUserIntendedSettlement` |

The `Api.RequireUser` method models the code as written. `RequireUserHangsOnListenerError` states the discrepancy.

## Left out

- The Firebase SDK (`signInWithEmailAndPassword`, `createUserWithEmailAndPassword`, `updateProfile`, `signOut`, `onAuthStateChanged`, `sendPasswordResetEmail`): foreign library code over the network, replaced by the outcome each call settles with.
- App, auth, Firestore and emulator initialisation and the environment configuration (src/api/api.ts:62-87): configuration and I/O.
- `AuthApi.Api.Register`: the SDK's `updateProfile` also refreshes the display name on the user object it was given. That update happens inside the SDK, so the model returns the user as created.
- Console logging of the swallowed profile-update failure and of a failed load: output only.
- `Home.HomeView.OnSubmit`: toasts are recorded as effects, not rendered. The `await` between `getAPI` and the API call is sequential: no other interaction interleaves.
- Concurrent `getAPI` calls: two calls in flight across the dynamic import could each construct an instance. Calls are modelled one after another.
- The provider's user object has many more fields than the four `mapFirebaseUser` reads; only those four are modelled, and the projection drops the rest.
- The email-format regular expression of the validation library: it is the uninterpreted parameter `isEmail`, shared by both schemas.
- Validation-library mechanics: the "Required" issue for a field that was never filled in (blank fields are empty strings here), the form reset on tab change, and `onChange` revalidation.
- `loginWithGoogle` (src/api/interface.ts:9): declared in the interface but not implemented.
- Route guarding and redirects: there are none in the code. `src/App.tsx` declares a single route that renders the page.
- `src/views/User.tsx` and all JSX rendering in `src/views/Home.tsx`: presentation only.
