/** The login / sign-up dialog of the front end (surge/src/components/AuthModal.jsx):
    field validation with fixed messages, and the submit state machine
    validate -> loading -> success | failure | exception -> not loading. */
module AuthModalComponent {
  import opened Wrappers
  import opened JsText

  datatype LoginForm = LoginForm(email: string, password: string)

  datatype SignupForm = SignupForm(hospitalName: string, email: string, password: string, location: string)

  /** Keys of the error objects the dialog renders. */
  datatype Field = EmailField | PasswordField | HospitalNameField | LocationField | GeneralField

  type Errors = map<Field, string>

  const EmailRequired := "Email is required"
  const EmailInvalid := "Please enter a valid email"
  const PasswordRequired := "Password is required"
  const PasswordTooShort := "Password must be at least 6 characters"
  const HospitalNameRequired := "Hospital name is required"
  const LoginFailed := "Login failed"
  const SignupFailed := "Signup failed"
  const NetworkError := "Network error. Please try again."
  const MinPasswordLength := 6

  const DefaultApiBaseUrl := "http://localhost:8000"
  const LoginPath := "/auth/login"
  const SignupPath := "/auth/signup"

  /** localStorage keys written after a successful login or sign-up. */
  const TokenKey := "authToken"
  const UserKey := "user"

  const EmptyLogin := LoginForm("", "")
  const EmptySignup := SignupForm("", "", "", "")

  // ---------------------------------------------------------------------------
  // The e-mail shape /^[^\s@]+@[^\s@]+\.[^\s@]+$/ as string predicates

  /** A character of the class `[^\s@]`. */
  predicate IsEmailChar(c: char) {
    !IsRegexSpace(c) && c != '@'
  }

  predicate AllEmailChars(s: string) {
    forall i :: 0 <= i < |s| ==> IsEmailChar(s[i])
  }

  function FirstIndexOf(s: string, c: char): (r: Option<nat>)
    ensures r.Some? ==> r.value < |s| && s[r.value] == c && c !in s[..r.value]
    ensures r.None? ==> c !in s
  {
    if s == [] then None
    else if s[0] == c then Some(0)
    else match FirstIndexOf(s[1..], c)
      case None => None
      case Some(k) => assert s[1..][..k] == s[1..k + 1]; Some(k + 1)
  }

  /** A domain part `[^\s@]+\.[^\s@]+`: some '.' that is neither its first nor
      its last character. */
  predicate HasInnerDot(domain: string) {
    |domain| >= 2 && '.' in domain[1..|domain| - 1]
  }

  /** `validateEmail`: the text before the first '@' is a non-empty local part,
      the text after it a domain; neither holds white space or another '@'. */
  function ValidateEmail(email: string): bool {
    match FirstIndexOf(email, '@')
    case None => false
    case Some(at) =>
      var local, domain := email[..at], email[at + 1..];
      local != "" && AllEmailChars(local) && AllEmailChars(domain) && HasInnerDot(domain)
  }

  /** The regular expression read piece by piece: `A@B.C` where `A`, `B` and
      `C` are non-empty runs of `[^\s@]`. */
  ghost predicate MatchesEmailPattern(s: string) {
    exists i, j :: 0 < i && i + 1 < j && j + 1 < |s| && s[i] == '@' && s[j] == '.'
      && AllEmailChars(s[..i]) && AllEmailChars(s[i + 1..j]) && AllEmailChars(s[j + 1..])
  }

  lemma EmailCharsSplit(s: string, k: nat)
    requires k < |s| && IsEmailChar(s[k])
    ensures AllEmailChars(s) <==> AllEmailChars(s[..k]) && AllEmailChars(s[k + 1..])
  {
    if AllEmailChars(s[..k]) && AllEmailChars(s[k + 1..]) {
      forall i | 0 <= i < |s| ensures IsEmailChar(s[i]) {
        if i < k { assert s[i] == s[..k][i]; }
        else if i > k { assert s[i] == s[k + 1..][i - k - 1]; }
      }
    }
  }

  lemma ValidEmailMatchesPattern(s: string)
    requires ValidateEmail(s)
    ensures MatchesEmailPattern(s)
  {
    var at := FirstIndexOf(s, '@').value;
    var domain := s[at + 1..];
    var k :| 1 <= k < |domain| - 1 && domain[k] == '.' by {
      var inner := domain[1..|domain| - 1];
      var m :| 0 <= m < |inner| && inner[m] == '.';
      assert domain[m + 1] == '.';
    }
    var j := at + 1 + k;
    EmailCharsSplit(domain, k);
    assert s[at + 1..j] == domain[..k];
    assert s[j + 1..] == domain[k + 1..];
    assert s[j] == '.';
  }

  lemma PatternMatchIsValidEmail(s: string, i: nat, j: nat)
    requires 0 < i && i + 1 < j && j + 1 < |s| && s[i] == '@' && s[j] == '.'
    requires AllEmailChars(s[..i]) && AllEmailChars(s[i + 1..j]) && AllEmailChars(s[j + 1..])
    ensures ValidateEmail(s)
  {
    var r := FirstIndexOf(s, '@');
    assert '@' !in s[..i] by {
      forall m | 0 <= m < i ensures s[..i][m] != '@' { assert IsEmailChar(s[..i][m]); }
    }
    assert s[i] in s;
    assert r == Some(i) by {
      assert forall m :: 0 <= m < i ==> s[m] == s[..i][m];
      assert forall m :: 0 <= m < r.value ==> s[m] == s[..r.value][m];
    }
    var domain := s[i + 1..];
    var k := j - i - 1;
    assert domain[..k] == s[i + 1..j];
    assert domain[k + 1..] == s[j + 1..];
    EmailCharsSplit(domain, k);
    assert domain[1..|domain| - 1][k - 1] == '.';
  }

  /** `validateEmail` accepts exactly the strings the regular expression matches. */
  lemma ValidateEmailMatchesPattern(s: string)
    ensures ValidateEmail(s) <==> MatchesEmailPattern(s)
  {
    if ValidateEmail(s) {
      ValidEmailMatchesPattern(s);
    }
    if MatchesEmailPattern(s) {
      var i: nat, j: nat :| 0 < i && i + 1 < j && j + 1 < |s| && s[i] == '@' && s[j] == '.'
        && AllEmailChars(s[..i]) && AllEmailChars(s[i + 1..j]) && AllEmailChars(s[j + 1..]);
      PatternMatchIsValidEmail(s, i, j);
    }
  }

  /** Every accepted address holds exactly one '@'. */
  lemma ValidEmailHasSingleAt(s: string)
    requires ValidateEmail(s)
    ensures exists i :: 0 < i < |s| && s[i] == '@' && '@' !in s[..i] && '@' !in s[i + 1..]
  {
    var at := FirstIndexOf(s, '@').value;
    var domain := s[at + 1..];
    assert '@' !in domain by {
      forall m | 0 <= m < |domain| ensures domain[m] != '@' { assert IsEmailChar(domain[m]); }
    }
  }

  // ---------------------------------------------------------------------------
  // Field validation

  function EmailError(email: string): Option<string> {
    if email == "" then Some(EmailRequired)
    else if !ValidateEmail(email) then Some(EmailInvalid)
    else None
  }

  function PasswordError(password: string): Option<string> {
    if password == "" then Some(PasswordRequired)
    else if Utf16Length(password) < MinPasswordLength then Some(PasswordTooShort)
    else None
  }

  function HospitalNameError(hospitalName: string): Option<string> {
    if hospitalName == "" then Some(HospitalNameRequired) else None
  }

  /** Records the message of one field, if it has one. */
  function Put(errors: Errors, field: Field, message: Option<string>): Errors {
    match message
    case None => errors
    case Some(m) => errors[field := m]
  }

  /** The error object `validateLoginForm` stores. */
  function LoginErrors(form: LoginForm): Errors {
    Put(Put(map[], EmailField, EmailError(form.email)), PasswordField, PasswordError(form.password))
  }

  /** The error object `validateSignupForm` stores. */
  function SignupErrors(form: SignupForm): Errors {
    var named := Put(map[], HospitalNameField, HospitalNameError(form.hospitalName));
    Put(Put(named, EmailField, EmailError(form.email)), PasswordField, PasswordError(form.password))
  }

  /** The e-mail rule: one message at most, chosen by emptiness and shape. */
  lemma EmailRule(email: string)
    ensures email == "" ==> EmailError(email) == Some(EmailRequired)
    ensures email != "" && !ValidateEmail(email) ==> EmailError(email) == Some(EmailInvalid)
    ensures EmailError(email).None? <==> ValidateEmail(email)
  {
  }

  /** The password rule, on JavaScript's length in UTF-16 code units. */
  lemma PasswordRule(password: string)
    ensures password == "" ==> PasswordError(password) == Some(PasswordRequired)
    ensures 1 <= Utf16Length(password) < MinPasswordLength ==> PasswordError(password) == Some(PasswordTooShort)
    ensures PasswordError(password).None? <==> Utf16Length(password) >= MinPasswordLength
  {
  }

  /** What the stored login errors say, field by field, and when the form is
      valid. */
  lemma LoginErrorsMeaning(form: LoginForm)
    ensures LoginErrors(form).Keys <= {EmailField, PasswordField}
    ensures EmailField in LoginErrors(form) <==> !ValidateEmail(form.email)
    ensures EmailField in LoginErrors(form) ==>
      LoginErrors(form)[EmailField] == if form.email == "" then EmailRequired else EmailInvalid
    ensures PasswordField in LoginErrors(form) <==> Utf16Length(form.password) < MinPasswordLength
    ensures PasswordField in LoginErrors(form) ==>
      LoginErrors(form)[PasswordField] == if form.password == "" then PasswordRequired else PasswordTooShort
    ensures LoginErrors(form) == map[] <==>
      ValidateEmail(form.email) && Utf16Length(form.password) >= MinPasswordLength
  {
    if LoginErrors(form) == map[] {
      assert EmailField !in LoginErrors(form);
    }
  }

  /** Sign-up applies the login rules to its e-mail and password, adds the
      hospital-name rule, and never reports anything about the location. */
  lemma SignupErrorsMeaning(form: SignupForm, otherLocation: string)
    ensures SignupErrors(form) - {HospitalNameField} == LoginErrors(LoginForm(form.email, form.password))
    ensures HospitalNameField in SignupErrors(form) <==> form.hospitalName == ""
    ensures HospitalNameField in SignupErrors(form) ==> SignupErrors(form)[HospitalNameField] == HospitalNameRequired
    ensures LocationField !in SignupErrors(form) && GeneralField !in SignupErrors(form)
    ensures SignupErrors(form.(location := otherLocation)) == SignupErrors(form)
    ensures SignupErrors(form) == map[] <==>
      form.hospitalName != "" && LoginErrors(LoginForm(form.email, form.password)) == map[]
  {
    var login := LoginErrors(LoginForm(form.email, form.password));
    var signup := SignupErrors(form);
    assert signup - {HospitalNameField} == login;
    if signup == map[] {
      assert HospitalNameField !in signup;
    }
  }

  /** A general message for a rejected request: the server's `detail` when it
      is truthy, otherwise the fixed fallback. */
  function FailureMessage(detail: Option<string>, fallback: string): string {
    OrElse(detail, fallback)
  }

  /** What `localStorage.setItem` stores for a value that may be undefined. */
  function StoredText(v: Option<string>): string {
    match v
    case Some(s) => s
    case None => "undefined"
  }

  /** The outcome of the `fetch` to the authentication endpoint, as far as the
      dialog can tell: an ok response with its parsed body (`access_token` and
      the JSON text of `user`, each possibly absent), a non-ok response with
      its parsed `detail`, or an exception (the request failed or a body was
      not JSON). */
  datatype AuthOutcome =
    | Accepted(accessToken: Option<string>, user: Option<string>)
    | Rejected(detail: Option<string>)
    | Failed

  datatype RequestBody = LoginBody(login: LoginForm) | SignupBody(signup: SignupForm)

  /** The POST request the dialog sends with `Content-Type: application/json`. */
  datatype AuthRequest = AuthRequest(url: string, body: RequestBody)

  class AuthModal {
    const apiBaseUrl: string
    var loading: bool
    var loginData: LoginForm
    var signupData: SignupForm
    var loginErrors: Errors
    var signupErrors: Errors
    /** The parent's logged-in flag, set through `setLoggedIn`. */
    var loggedIn: bool
    /** Whether the parent's `onClose` has been called. */
    var closeRequested: bool
    /** The browser's localStorage. */
    var storage: map<string, string>

    /** A freshly mounted dialog; `apiUrlSetting` is REACT_APP_API_URL. */
    constructor (apiUrlSetting: Option<string>, loggedIn: bool, storage: map<string, string>)
      ensures apiBaseUrl == OrElse(apiUrlSetting, DefaultApiBaseUrl)
      ensures !this.loading && this.loginData == EmptyLogin && this.signupData == EmptySignup
      ensures this.loginErrors == map[] && this.signupErrors == map[]
      ensures this.loggedIn == loggedIn && !this.closeRequested && this.storage == storage
    {
      apiBaseUrl := OrElse(apiUrlSetting, DefaultApiBaseUrl);
      this.loading := false;
      this.loginData := EmptyLogin;
      this.signupData := EmptySignup;
      this.loginErrors := map[];
      this.signupErrors := map[];
      this.loggedIn := loggedIn;
      this.closeRequested := false;
      this.storage := storage;
    }

    /** `validateLoginForm`: builds the error object field by field, stores it,
        and reports whether it has no keys. */
    method ValidateLoginForm() returns (valid: bool)
      modifies this`loginErrors
      ensures loginErrors == LoginErrors(loginData)
      ensures valid <==> loginErrors == map[]
    {
      var errors: Errors := map[];
      if loginData.email == "" {
        errors := errors[EmailField := EmailRequired];
      } else if !ValidateEmail(loginData.email) {
        errors := errors[EmailField := EmailInvalid];
      }
      if loginData.password == "" {
        errors := errors[PasswordField := PasswordRequired];
      } else if Utf16Length(loginData.password) < MinPasswordLength {
        errors := errors[PasswordField := PasswordTooShort];
      }
      loginErrors := errors;
      valid := |errors.Keys| == 0;
    }

    /** `validateSignupForm`: as for login, after the hospital-name check. */
    method ValidateSignupForm() returns (valid: bool)
      modifies this`signupErrors
      ensures signupErrors == SignupErrors(signupData)
      ensures valid <==> signupErrors == map[]
    {
      var errors: Errors := map[];
      if signupData.hospitalName == "" {
        errors := errors[HospitalNameField := HospitalNameRequired];
      }
      if signupData.email == "" {
        errors := errors[EmailField := EmailRequired];
      } else if !ValidateEmail(signupData.email) {
        errors := errors[EmailField := EmailInvalid];
      }
      if signupData.password == "" {
        errors := errors[PasswordField := PasswordRequired];
      } else if Utf16Length(signupData.password) < MinPasswordLength {
        errors := errors[PasswordField := PasswordTooShort];
      }
      signupErrors := errors;
      valid := |errors.Keys| == 0;
    }

    /** `resetForms`: both forms and both error objects back to empty. */
    method ResetForms()
      modifies this`loginData, this`signupData, this`loginErrors, this`signupErrors
      ensures loginData == EmptyLogin && signupData == EmptySignup
      ensures loginErrors == map[] && signupErrors == map[]
    {
      loginData := EmptyLogin;
      signupData := EmptySignup;
      loginErrors := map[];
      signupErrors := map[];
    }

    /** `handleClose`: reset, then tell the parent to close the dialog. */
    method HandleClose()
      modifies this`loginData, this`signupData, this`loginErrors, this`signupErrors, this`closeRequested
      ensures loginData == EmptyLogin && signupData == EmptySignup
      ensures loginErrors == map[] && signupErrors == map[]
      ensures closeRequested
    {
      ResetForms();
      closeRequested := true;
    }

    /** Success path shared by login and sign-up: store the token and the user,
        log in, close. */
    method Succeed(accessToken: Option<string>, user: Option<string>)
      modifies this
      ensures storage == old(storage)[TokenKey := StoredText(accessToken)][UserKey := StoredText(user)]
      ensures loggedIn && closeRequested && loading == old(loading)
      ensures loginData == EmptyLogin && signupData == EmptySignup
      ensures loginErrors == map[] && signupErrors == map[]
    {
      storage := storage[TokenKey := StoredText(accessToken)];
      storage := storage[UserKey := StoredText(user)];
      loggedIn := true;
      HandleClose();
    }

    /** `handleLogin`, with `outcome` standing for what the request yields.
        Returns the request sent, if any. */
    method HandleLogin(outcome: AuthOutcome) returns (sent: Option<AuthRequest>)
      modifies this
      ensures sent.Some? <==> LoginErrors(old(loginData)) == map[]
      ensures sent.None? ==>
        && loginErrors == LoginErrors(old(loginData))
        && loading == old(loading) && loggedIn == old(loggedIn) && closeRequested == old(closeRequested)
        && loginData == old(loginData) && signupData == old(signupData)
        && signupErrors == old(signupErrors) && storage == old(storage)
      ensures sent.Some? ==>
        && sent.value == AuthRequest(apiBaseUrl + LoginPath, LoginBody(old(loginData)))
        && !loading
      ensures sent.Some? && outcome.Accepted? ==>
        && storage == old(storage)[TokenKey := StoredText(outcome.accessToken)][UserKey := StoredText(outcome.user)]
        && loggedIn && closeRequested
        && loginData == EmptyLogin && signupData == EmptySignup
        && loginErrors == map[] && signupErrors == map[]
      ensures sent.Some? && !outcome.Accepted? ==>
        && loginErrors == map[GeneralField :=
             if outcome.Rejected? then FailureMessage(outcome.detail, LoginFailed) else NetworkError]
        && loggedIn == old(loggedIn) && closeRequested == old(closeRequested)
        && loginData == old(loginData) && signupData == old(signupData)
        && signupErrors == old(signupErrors) && storage == old(storage)
    {
      var valid := ValidateLoginForm();
      if !valid {
        return None;
      }
      loading := true;
      sent := Some(AuthRequest(apiBaseUrl + LoginPath, LoginBody(loginData)));
      match outcome {
        case Accepted(token, user) =>
          Succeed(token, user);
        case Rejected(detail) =>
          loginErrors := map[GeneralField := FailureMessage(detail, LoginFailed)];
        case Failed =>
          loginErrors := map[GeneralField := NetworkError];
      }
      loading := false;
    }

    /** `handleSignup`, with `outcome` standing for what the request yields.
        Returns the request sent, if any. */
    method HandleSignup(outcome: AuthOutcome) returns (sent: Option<AuthRequest>)
      modifies this
      ensures sent.Some? <==> SignupErrors(old(signupData)) == map[]
      ensures sent.None? ==>
        && signupErrors == SignupErrors(old(signupData))
        && loading == old(loading) && loggedIn == old(loggedIn) && closeRequested == old(closeRequested)
        && loginData == old(loginData) && signupData == old(signupData)
        && loginErrors == old(loginErrors) && storage == old(storage)
      ensures sent.Some? ==>
        && sent.value == AuthRequest(apiBaseUrl + SignupPath, SignupBody(old(signupData)))
        && !loading
      ensures sent.Some? && outcome.Accepted? ==>
        && storage == old(storage)[TokenKey := StoredText(outcome.accessToken)][UserKey := StoredText(outcome.user)]
        && loggedIn && closeRequested
        && loginData == EmptyLogin && signupData == EmptySignup
        && loginErrors == map[] && signupErrors == map[]
      ensures sent.Some? && !outcome.Accepted? ==>
        && signupErrors == map[GeneralField :=
             if outcome.Rejected? then FailureMessage(outcome.detail, SignupFailed) else NetworkError]
        && loggedIn == old(loggedIn) && closeRequested == old(closeRequested)
        && loginData == old(loginData) && signupData == old(signupData)
        && loginErrors == old(loginErrors) && storage == old(storage)
    {
      var valid := ValidateSignupForm();
      if !valid {
        return None;
      }
      loading := true;
      sent := Some(AuthRequest(apiBaseUrl + SignupPath, SignupBody(signupData)));
      match outcome {
        case Accepted(token, user) =>
          Succeed(token, user);
        case Rejected(detail) =>
          signupErrors := map[GeneralField := FailureMessage(detail, SignupFailed)];
        case Failed =>
          signupErrors := map[GeneralField := NetworkError];
      }
      loading := false;
    }
  }
}
