/**
 * The sign-in and registration page: the username check on blur, form
 * validation, the fields handed to the account service, and where an
 * authenticated user is sent.
 */
module AuthPage {
  import opened Common
  import opened Routes
  import AuthService

  const FILL_REQUIRED := "Please fill in all required fields"
  const USERNAME_SHORT := "Username must be at least 3 characters"
  const USERNAME_CHARSET := "Username can only contain letters, numbers, and underscores"
  const USERNAME_TAKEN := "Username already taken. Please choose another."
  const PASSWORD_SHORT := "Password must be at least 6 characters"
  const PASSWORD_MISMATCH := "Passwords do not match"
  const GENERIC_ERROR := "An error occurred. Please try again."
  const RESTRICTED := "Your account has been restricted. Please contact support."

  datatype Form = Form(username: string, displayName: string, phone: string, email: string,
                       password: string, confirmPassword: string)

  /** A character `/^[a-z0-9_]+$/` accepts. */
  predicate UsernameChar(c: char)
  {
    'a' <= c <= 'z' || '0' <= c <= '9' || c == '_'
  }

  predicate UsernameChars(s: string)
  {
    |s| > 0 && forall i :: 0 <= i < |s| ==> UsernameChar(s[i])
  }

  /** The outcome of a blur: the username error it sets, if any, and whether availability was queried. */
  datatype Blur = Blur(error: Option<string>, queried: bool)

  /**
   * handleUsernameBlur. Nothing happens for an empty field or in login
   * mode; otherwise the lowercased and trimmed name is checked for length,
   * then for its characters, and only then queried; a taken name sets the
   * error, a failed query changes nothing.
   */
  function HandleUsernameBlur(username: string, isLogin: bool, available: Result<bool>): (r: Blur)
    ensures r.queried <==>
      |username| > 0 && !isLogin && |AuthService.NormalizeUsername(username)| >= 3
      && UsernameChars(AuthService.NormalizeUsername(username))
    ensures r.error.Some? <==>
      |username| > 0 && !isLogin && (!r.queried || available == Ok(false))
    ensures r.error == Some(USERNAME_SHORT) <==>
      |username| > 0 && !isLogin && |AuthService.NormalizeUsername(username)| < 3
    ensures r.queried ==> r.error.Some? ==> r.error == Some(USERNAME_TAKEN)
  {
    if |username| == 0 || isLogin then Blur(None, false)
    else
      var name := AuthService.NormalizeUsername(username);
      if |name| < 3 then Blur(Some(USERNAME_SHORT), false)
      else if !UsernameChars(name) then Blur(Some(USERNAME_CHARSET), false)
      else Blur(if available == Ok(false) then Some(USERNAME_TAKEN) else None, true)
  }

  /**
   * validateForm: None when the form may be submitted, otherwise the
   * message of the first failed check.
   */
  function ValidateForm(form: Form, isLogin: bool, usernameError: string): (r: Option<string>)
    ensures |form.email| == 0 || |form.password| == 0 ==> r == Some(FILL_REQUIRED)
    ensures isLogin ==> (r.None? <==> |form.email| > 0 && |form.password| > 0)
  {
    if |form.email| == 0 || |form.password| == 0 then Some(FILL_REQUIRED)
    else if isLogin then None
    else if |form.username| == 0 || |form.displayName| == 0 then Some(FILL_REQUIRED)
    else if |form.username| < 3 then Some(USERNAME_SHORT)
    else if |form.password| < 6 then Some(PASSWORD_SHORT)
    else if form.password != form.confirmPassword then Some(PASSWORD_MISMATCH)
    else if |usernameError| > 0 then Some(usernameError)
    else None
  }

  /** A registration form that validates meets every rule, and one that meets every rule validates. */
  lemma ValidRegistration(form: Form, usernameError: string)
    ensures ValidateForm(form, false, usernameError).None? <==>
      && |form.email| > 0 && |form.displayName| > 0
      && |form.username| >= 3 && |form.password| >= 6 && form.password == form.confirmPassword
      && usernameError == ""
  {
  }

  /** A failed check always leaves a non-empty message for the page to show. */
  lemma FailureHasMessage(form: Form, isLogin: bool, usernameError: string)
    ensures ValidateForm(form, isLogin, usernameError).Some? ==> |ValidateForm(form, isLogin, usernameError).value| > 0
  {
  }

  /**
   * The length rule is applied to different strings: the blur check
   * measures the lowercased and trimmed name, the form check the raw one,
   * so a name padded with a space passes the second and fails the first.
   */
  lemma LengthRulesDisagree()
    ensures var form := Form("ab ", "Ab", "", "a@b.c", "secret", "secret");
            ValidateForm(form, false, "") == None
            && HandleUsernameBlur(form.username, false, Ok(true)).error == Some(USERNAME_SHORT)
  {
    var raw := "ab ";
    assert Lower(raw) == raw by {
      assert forall i :: 0 <= i < |raw| ==> LowerChar(raw[i]) == raw[i];
    }
    assert !IsSpace(raw[0]);
    assert TrimStart(raw) == raw;
    assert IsSpace(raw[2]) && raw[..2] == "ab";
    assert !IsSpace("ab"[1]);
    assert TrimEnd(raw) == "ab";
    assert AuthService.NormalizeUsername(raw) == "ab";
  }

  /** The request handleSubmit makes once the form validates. */
  datatype AuthRequest =
    | Login(email: string, password: string)
    | Register(username: string, displayName: string, phone: string, email: string, password: string)

  /** The registration fields as handed over: the username lowercased and trimmed, the others trimmed, the password as typed. */
  function RegistrationRequest(form: Form): (r: AuthRequest)
    ensures r.Register? && r.password == form.password
    ensures r.username == AuthService.NormalizeUsername(form.username)
    ensures r.displayName == Trim(form.displayName) && r.phone == Trim(form.phone) && r.email == Trim(form.email)
  {
    Register(Trim(Lower(form.username)), Trim(form.displayName), Trim(form.phone), Trim(form.email), form.password)
  }

  /** The username the page sends is already normal, so the service's own normalisation leaves it as it is. */
  lemma SubmittedUsernameIsNormal(form: Form)
    ensures AuthService.NormalizeUsername(RegistrationRequest(form).username) == RegistrationRequest(form).username
  {
    AuthService.NormalizeIdempotent(form.username);
  }

  /** The outcome of a submit: the request made, if any, and the error shown afterwards ("" for none). */
  datatype Submit = Submit(request: Option<AuthRequest>, error: string)

  /**
   * handleSubmit: an invalid form makes no request and shows its message;
   * otherwise login or registration is requested and a failure shows its
   * message, or the generic one when it has none.
   */
  function HandleSubmit(form: Form, isLogin: bool, usernameError: string, outcome: Result<bool>): (r: Submit)
    ensures r.request.None? <==> ValidateForm(form, isLogin, usernameError).Some?
    ensures r.request.None? ==> r.error == ValidateForm(form, isLogin, usernameError).value
    ensures r.request.Some? && isLogin ==> r.request.value == Login(form.email, form.password)
    ensures r.request.Some? && !isLogin ==> r.request.value == RegistrationRequest(form)
    ensures r.request.Some? ==> (r.error == "" <==> outcome.Ok?)
  {
    match ValidateForm(form, isLogin, usernameError)
    case Some(message) => Submit(None, message)
    case None =>
      var request := if isLogin then Login(form.email, form.password) else RegistrationRequest(form);
      Submit(Some(request),
             if outcome.Ok? then "" else if |outcome.message| > 0 then outcome.message else GENERIC_ERROR)
  }

  /** Where an authenticated, unbanned user is sent: back where they came from, else the admin or app home. */
  function RedirectTarget(isAuthenticated: bool, isAdmin: bool, isBanned: bool, from: Option<Location>): (r: Option<string>)
    ensures r.Some? <==> isAuthenticated && !isBanned
    ensures r.Some? && from.Some? && |from.value.pathname| > 0 ==> r.value == from.value.pathname
    ensures r.Some? && (from.None? || |from.value.pathname| == 0) ==> r.value == (if isAdmin then "/admin" else "/app")
  {
    if !isAuthenticated || isBanned then None
    else if from.Some? && |from.value.pathname| > 0 then Some(from.value.pathname)
    else Some(if isAdmin then "/admin" else "/app")
  }

  /** The message the page shows when it was reached with the banned flag. */
  function ArrivalError(banned: bool): (r: string)
    ensures banned <==> r == RESTRICTED
  {
    if banned then RESTRICTED else ""
  }

  /**
   * The guard and the page agree: a signed-out visitor stopped by the
   * private guard is sent back to the same page after signing in, and a
   * banned user is stopped, told why, and not sent back, so the two never
   * redirect to each other in a loop.
   */
  lemma GuardAndPageAgree(location: Location, isAdmin: bool)
    requires |location.pathname| > 0
    ensures PrivateRoute(false, false, false, location).from == Some(location)
    ensures RedirectTarget(true, isAdmin, false, PrivateRoute(false, false, false, location).from) == Some(location.pathname)
    ensures PrivateRoute(false, true, true, location).banned
    ensures ArrivalError(PrivateRoute(false, true, true, location).banned) == RESTRICTED
    ensures RedirectTarget(true, isAdmin, true, PrivateRoute(false, true, true, location).from).None?
  {
  }
}
