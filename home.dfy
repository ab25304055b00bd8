/**
  The login/signup page of src/views/Home.tsx: the two validation schemas,
  the choice between them by the active tab, and the submit handler that
  builds credentials, calls the API and drives the loading flag and toasts.

  The email-format check belongs to the validation library; it is the
  parameter `isEmail`, shared by both schemas.
*/
module Home {
  import opened Wrappers
  import opened Models
  import opened AuthApi
  import ApiLoader

  /** The form fields an issue can be attached to. */
  datatype Field = Email | Password | ConfirmPassword

  /** One validation issue: the field it is reported on, and its message. */
  datatype FieldError = FieldError(field: Field, message: string)

  /** The form's values; a field left blank holds the empty string. */
  datatype FormValues = FormValues(email: string, password: string, confirmPassword: string)

  datatype Schema = LoginSchema | SignupSchema

  function EmailIssues(v: FormValues, isEmail: string -> bool): seq<FieldError> {
    if isEmail(v.email) then [] else [FieldError(Email, "Invalid email format")]
  }

  /**
    A string's `length` in JavaScript: its UTF-16 code units, two for each
    character above U+FFFF.
  */
  function Utf16Length(s: string): (n: nat)
    ensures |s| <= n <= 2 * |s|
    ensures (forall i :: 0 <= i < |s| ==> s[i] as int <= 0xFFFF) ==> n == |s|
  {
    if s == [] then 0 else (if s[0] as int > 0xFFFF then 2 else 1) + Utf16Length(s[1..])
  }

  /** Three characters outside the Basic Multilingual Plane have length 6. */
  lemma ThreeAstralCharactersHaveLengthSix()
    ensures Utf16Length("\U{1F600}\U{1F600}\U{1F600}") == 6
  {
  }

  /** loginSchema: a well-formed email and a non-empty password. */
  function LoginIssues(v: FormValues, isEmail: string -> bool): (r: seq<FieldError>)
    ensures r == [] <==> isEmail(v.email) && v.password != ""
    ensures v.password == "" ==> FieldError(Password, "Password is required") in r
    ensures forall e :: e in r ==> e.field != ConfirmPassword
  {
    EmailIssues(v, isEmail)
      + (if Utf16Length(v.password) < 1 then [FieldError(Password, "Password is required")] else [])
  }

  /**
    signupSchema: the field checks, then the refinement that the two passwords
    agree, reported on the confirmPassword field. With every issue reported,
    the refinement runs even when a field check has failed.
  */
  function SignupIssues(v: FormValues, isEmail: string -> bool): (r: seq<FieldError>)
    ensures r == [] <==> isEmail(v.email) && Utf16Length(v.password) >= 6 && v.confirmPassword != "" && v.confirmPassword == v.password
    ensures Utf16Length(v.password) < 6 ==> FieldError(Password, "Password must be at least 6 characters") in r
    ensures v.confirmPassword == "" ==> FieldError(ConfirmPassword, "Please confirm your password") in r
    ensures v.confirmPassword != v.password <==> FieldError(ConfirmPassword, "Passwords don't match") in r
    ensures forall e :: e in r && e.message == "Passwords don't match" ==> e.field == ConfirmPassword
  {
    EmailIssues(v, isEmail)
      + (if Utf16Length(v.password) < 6 then [FieldError(Password, "Password must be at least 6 characters")] else [])
      + (if Utf16Length(v.confirmPassword) < 1 then [FieldError(ConfirmPassword, "Please confirm your password")] else [])
      + (if v.password != v.confirmPassword then [FieldError(ConfirmPassword, "Passwords don't match")] else [])
  }

  /** A short password with a different confirmation fails on two fields. */
  lemma ShortMismatchedSignup(isEmail: string -> bool)
    requires isEmail("a@b.com")
    ensures SignupIssues(FormValues("a@b.com", "abc", "xyz"), isEmail)
         == [FieldError(Password, "Password must be at least 6 characters"), FieldError(ConfirmPassword, "Passwords don't match")]
  {
  }

  /** The schema the form resolver uses for the active tab. */
  function SchemaFor(activeTab: string): Schema {
    if activeTab == "login" then LoginSchema else SignupSchema
  }

  function Issues(s: Schema, v: FormValues, isEmail: string -> bool): seq<FieldError> {
    match s
    case LoginSchema => LoginIssues(v, isEmail)
    case SignupSchema => SignupIssues(v, isEmail)
  }

  /**
    The issues the form resolver reports for the active tab: the login rules
    on the "login" tab, the signup rules on any other.
  */
  function ResolverIssues(activeTab: string, v: FormValues, isEmail: string -> bool): (r: seq<FieldError>)
    ensures activeTab == "login" ==> (r == [] <==> isEmail(v.email) && v.password != "")
    ensures activeTab != "login" ==>
      (r == [] <==> isEmail(v.email) && Utf16Length(v.password) >= 6 && v.confirmPassword != "" && v.confirmPassword == v.password)
    ensures activeTab != "login" && v.confirmPassword != v.password ==> FieldError(ConfirmPassword, "Passwords don't match") in r
  {
    Issues(SchemaFor(activeTab), v, isEmail)
  }

  /** The short, mismatched signup is rejected whatever the email check says. */
  lemma ShortMismatchedSignupRejected(isEmail: string -> bool)
    ensures ResolverIssues("signup", FormValues("a@b.com", "abc", "xyz"), isEmail) != []
  {
  }

  /** Whatever the signup form accepts, the login form accepts too. */
  lemma SignupAcceptedIsLoginAccepted(v: FormValues, isEmail: string -> bool)
    requires Issues(SignupSchema, v, isEmail) == []
    ensures Issues(LoginSchema, v, isEmail) == []
  {
  }

  /** `email.split("@")[0]`: the text before the first '@', or all of it. */
  function EmailLocalPart(email: string): (r: string)
    ensures r <= email
    ensures '@' !in r
    ensures |r| < |email| ==> email[|r|] == '@'
  {
    if email == [] || email[0] == '@' then [] else [email[0]] + EmailLocalPart(email[1..])
  }

  /** The three properties of EmailLocalPart determine it. */
  lemma {:induction false} EmailLocalPartUnique(email: string, p: string)
    requires p <= email && '@' !in p
    requires |p| < |email| ==> email[|p|] == '@'
    ensures p == EmailLocalPart(email)
  {
  }

  /** An email without '@' is used whole. */
  lemma EmailLocalPartWithoutAt(email: string)
    requires '@' !in email
    ensures EmailLocalPart(email) == email
  {
    if |EmailLocalPart(email)| < |email| {
      assert email[|EmailLocalPart(email)|] == '@';
    }
  }

  /** An API request the submit handler makes. */
  datatype Request = LoginRequest(login: LoginCredentials) | RegisterRequest(register: RegisterCredentials)

  /** What the submit handler does, in order: the loading flag, the API call and the toasts. */
  datatype Effect = SetLoading(on: bool) | CallApi(request: Request) | ShowSuccess(text: string) | ShowError(text: string)

  /** The credentials onSubmit builds from the form for the active tab. */
  function SubmitRequest(activeTab: string, v: FormValues): (r: Request)
    ensures r.LoginRequest? <==> activeTab == "login"
    ensures r.LoginRequest? ==> r.login.email == v.email && r.login.password == v.password
    ensures r.RegisterRequest? ==> r.register.email == v.email && r.register.password == v.password
    ensures r.RegisterRequest? ==> r.register.displayName == Some(EmailLocalPart(v.email))
  {
    if activeTab == "login" then LoginRequest(LoginCredentials(v.email, v.password))
    else RegisterRequest(RegisterCredentials(v.email, v.password, Some(EmailLocalPart(v.email))))
  }

  /** A signup with an email starting with '@' registers an empty name, so no profile update is made. */
  lemma LeadingAtSkipsProfileUpdate(v: FormValues, create: Result<FirebaseUser, AuthError>)
    requires |v.email| > 0 && v.email[0] == '@'
    ensures |RegisterCalls(SubmitRequest("signup", v).register, create)| == 1
  {
  }

  /** How the API call settles for a request, given the provider's outcomes. */
  function SubmitResult(req: Request, signIn: Result<FirebaseUser, AuthError>, create: Result<FirebaseUser, AuthError>): (r: Result<User, ApiError>)
    requires signIn.Ok? ==> signIn.value.email.Some?
    requires create.Ok? ==> create.value.email.Some?
    ensures r.Err? ==> IsMappedCode(r.error.code) && r.error.message != ""
  {
    match req
    case LoginRequest(_) => UserOrMappedError(signIn)
    case RegisterRequest(_) => UserOrMappedError(create)
  }

  /** The text of the error toast: the error's message, or a generic one when it is empty. */
  function ErrorText(e: ApiError): (r: string)
    ensures r != ""
    ensures e.message != "" ==> r == e.message
    ensures e.message == "" ==> r == "An error occurred"
  {
    FallbackMessage(e.message, "An error occurred")
  }

  /** The effects of one submit, once the API instance is available. */
  function SubmitEffects(activeTab: string, v: FormValues, signIn: Result<FirebaseUser, AuthError>, create: Result<FirebaseUser, AuthError>): (r: seq<Effect>)
    requires signIn.Ok? ==> signIn.value.email.Some?
    requires create.Ok? ==> create.value.email.Some?
    ensures |r| == 4
    ensures r[0] == SetLoading(true) && r[3] == SetLoading(false)
    ensures r[1] == CallApi(SubmitRequest(activeTab, v))
    ensures r[2].ShowSuccess? || r[2].ShowError?
    ensures r[2].ShowSuccess? <==> SubmitResult(SubmitRequest(activeTab, v), signIn, create).Ok?
    ensures r[2].ShowError? ==> r[2].text == SubmitResult(SubmitRequest(activeTab, v), signIn, create).error.message
  {
    var req := SubmitRequest(activeTab, v);
    var toast :=
      match SubmitResult(req, signIn, create)
      case Ok(_) => ShowSuccess(if activeTab == "login" then "Successfully logged in!" else "Successfully registered!")
      case Err(e) => ShowError(ErrorText(e));
    [SetLoading(true), CallApi(req), toast, SetLoading(false)]
  }

  /** The provider requests one submit issues through the API instance. */
  function SubmitCalls(activeTab: string, v: FormValues, create: Result<FirebaseUser, AuthError>): (r: seq<ProviderCall>)
    ensures activeTab == "login" ==> r == [SignIn(v.email, v.password)]
    ensures activeTab != "login" ==> |r| >= 1 && r[0] == CreateUser(v.email, v.password)
  {
    match SubmitRequest(activeTab, v)
    case LoginRequest(c) => [SignIn(c.email, c.password)]
    case RegisterRequest(c) => RegisterCalls(c, create)
  }

  /** The Home component's state. */
  class HomeView {
    var activeTab: string
    var submitLoading: bool
    /** Everything onSubmit has done so far, in order. */
    var effects: seq<Effect>

    constructor ()
      ensures activeTab == "login" && !submitLoading && effects == []
    {
      activeTab := "login";
      submitLoading := false;
      effects := [];
    }

    /** The tab bar's onChange (the form reset is not modelled). */
    method SelectTab(key: string)
      modifies this`activeTab
      ensures activeTab == key
    {
      activeTab := key;
    }

    /**
      onSubmit. `loadSucceeds` is passed to getAPI; `signIn`, `create` and
      `update` are how the provider settles the calls the API makes.
    */
    method OnSubmit(cache: ApiLoader.ApiCache, loadSucceeds: bool, values: FormValues,
                    signIn: Result<FirebaseUser, AuthError>, create: Result<FirebaseUser, AuthError>, update: Outcome<AuthError>)
      requires cache.Valid()
      requires signIn.Ok? ==> signIn.value.email.Some?
      requires create.Ok? ==> create.value.email.Some?
      modifies this, cache, cache.api
      ensures cache.Valid() && activeTab == old(activeTab)
      ensures old(cache.api) != null ==> cache.api == old(cache.api)
      ensures old(cache.api) == null ==> (cache.api != null <==> loadSucceeds) && (cache.api != null ==> fresh(cache.api))
      ensures cache.api == null ==> effects == old(effects) && submitLoading == old(submitLoading)
      ensures cache.api != null ==> effects == old(effects) + SubmitEffects(activeTab, values, signIn, create) && !submitLoading
      ensures cache.api != null ==>
        cache.api.calls == (if old(cache.api) == null then [] else old(cache.api.calls)) + SubmitCalls(activeTab, values, create)
    {
      var api := cache.GetApi(loadSucceeds);
      if api == null {
        return;
      }
      submitLoading := true;
      effects := effects + [SetLoading(true)];
      var r: Result<User, ApiError>;
      if activeTab == "login" {
        var credentials := LoginCredentials(values.email, values.password);
        effects := effects + [CallApi(LoginRequest(credentials))];
        r := api.Login(credentials, signIn);
        if r.Ok? {
          effects := effects + [ShowSuccess("Successfully logged in!")];
        }
      } else {
        var credentials := RegisterCredentials(values.email, values.password, Some(EmailLocalPart(values.email)));
        effects := effects + [CallApi(RegisterRequest(credentials))];
        r := api.Register(credentials, create, update);
        if r.Ok? {
          effects := effects + [ShowSuccess("Successfully registered!")];
        }
      }
      if r.Err? {
        effects := effects + [ShowError(ErrorText(r.error))];
      }
      submitLoading := false;
      effects := effects + [SetLoading(false)];
    }

    /**
      `handleSubmit(onSubmit)`: the form resolver validates the values with the
      schema of the active tab, and onSubmit runs only when it reports no issue.
      A rejected form changes nothing: no effect, no load, no API request.
    */
    method HandleSubmit(cache: ApiLoader.ApiCache, loadSucceeds: bool, values: FormValues, isEmail: string -> bool,
                        signIn: Result<FirebaseUser, AuthError>, create: Result<FirebaseUser, AuthError>, update: Outcome<AuthError>)
      requires cache.Valid()
      requires signIn.Ok? ==> signIn.value.email.Some?
      requires create.Ok? ==> create.value.email.Some?
      modifies this, cache, cache.api
      ensures cache.Valid() && activeTab == old(activeTab)
      ensures old(cache.api) != null ==> cache.api == old(cache.api)
      ensures ResolverIssues(activeTab, values, isEmail) == [] && old(cache.api) == null ==>
        (cache.api != null <==> loadSucceeds) && (cache.api != null ==> fresh(cache.api))
      ensures ResolverIssues(activeTab, values, isEmail) != [] ==>
        effects == old(effects) && submitLoading == old(submitLoading) &&
        cache.api == old(cache.api) && cache.loadAttempts == old(cache.loadAttempts) &&
        (cache.api != null ==> cache.api.calls == old(cache.api.calls))
      ensures ResolverIssues(activeTab, values, isEmail) == [] && cache.api != null ==>
        effects == old(effects) + SubmitEffects(activeTab, values, signIn, create) && !submitLoading &&
        cache.api.calls == (if old(cache.api) == null then [] else old(cache.api.calls)) + SubmitCalls(activeTab, values, create)
      ensures ResolverIssues(activeTab, values, isEmail) == [] && cache.api == null ==>
        effects == old(effects) && submitLoading == old(submitLoading)
    {
      if ResolverIssues(activeTab, values, isEmail) == [] {
        OnSubmit(cache, loadSucceeds, values, signIn, create, update);
      }
    }
  }

  /**
    Signing up with password "abc" and confirmation "xyz" fails validation
    locally: the page does nothing and the API is never called.
  */
  method SubmitShortMismatchedSignup(view: HomeView, cache: ApiLoader.ApiCache, loadSucceeds: bool, isEmail: string -> bool,
                                     signIn: Result<FirebaseUser, AuthError>, create: Result<FirebaseUser, AuthError>, update: Outcome<AuthError>)
    requires view.activeTab == "signup" && cache.Valid()
    requires signIn.Ok? ==> signIn.value.email.Some?
    requires create.Ok? ==> create.value.email.Some?
    modifies view, cache, cache.api
    ensures view.activeTab == old(view.activeTab)
    ensures view.effects == old(view.effects) && view.submitLoading == old(view.submitLoading)
    ensures cache.api == old(cache.api) && cache.loadAttempts == old(cache.loadAttempts)
    ensures cache.api != null ==> cache.api.calls == old(cache.api.calls)
  {
    ShortMismatchedSignupRejected(isEmail);
    view.HandleSubmit(cache, loadSucceeds, FormValues("a@b.com", "abc", "xyz"), isEmail, signIn, create, update);
  }
}
