/**
 * The registration form: six field checks that each set their own message,
 * a submit that re-runs all six and sends the form only when every one
 * passes, and the message shown when registering fails.
 */
module Registration {
  import opened Opt
  import opened Text
  import opened EmailRule

  // ---------------------------------------------------------------------
  // The password regular expression
  // ---------------------------------------------------------------------

  /** The special characters the password rule asks for. */
  predicate IsSpecial(c: char)
  {
    c == '@' || c == '$' || c == '!' || c == '%' || c == '*' || c == '?' || c == '&'
  }

  /** `[A-Za-z\d@$!%*?&]`. */
  predicate PasswordChar(c: char)
  {
    IsLower(c) || IsUpper(c) || IsDigit(c) || IsSpecial(c)
  }

  /** The look-ahead `(?=.*[x])`: a character of class `x` reached through characters `.` matches. */
  predicate LookaheadFinds(s: string, x: char -> bool)
  {
    exists i | 0 <= i < |s| :: x(s[i]) && forall j :: 0 <= j < i ==> !IsLineTerminator(s[j])
  }

  /** /^(?=.*[a-z])(?=.*[A-Z])(?=.*\d)(?=.*[@$!%*?&])[A-Za-z\d@$!%*?&]{8,}$/ */
  predicate PasswordMatches(s: string)
  {
    LookaheadFinds(s, IsLower) && LookaheadFinds(s, IsUpper) && LookaheadFinds(s, IsDigit)
    && LookaheadFinds(s, IsSpecial)
    && |s| >= 8 && forall i :: 0 <= i < |s| ==> PasswordChar(s[i])
  }

  /** The rule in words: eight or more allowed characters with a lower, an upper, a digit and a special one. */
  predicate StrongPassword(s: string)
  {
    |s| >= 8 && (forall i :: 0 <= i < |s| ==> PasswordChar(s[i]))
    && (exists i | 0 <= i < |s| :: IsLower(s[i])) && (exists i | 0 <= i < |s| :: IsUpper(s[i]))
    && (exists i | 0 <= i < |s| :: IsDigit(s[i])) && (exists i | 0 <= i < |s| :: IsSpecial(s[i]))
  }

  /** Allowed characters are never line terminators, so a look-ahead finds any character of its class. */
  lemma LookaheadInPassword(s: string, x: char -> bool)
    requires forall i :: 0 <= i < |s| ==> PasswordChar(s[i])
    ensures LookaheadFinds(s, x) <==> exists i | 0 <= i < |s| :: x(s[i])
  {
    if i :| 0 <= i < |s| && x(s[i]) {
      forall j | 0 <= j < i
        ensures !IsLineTerminator(s[j])
      {
        assert PasswordChar(s[j]);
      }
    }
  }

  /** The regular expression accepts exactly the strong passwords. */
  lemma PasswordMatchesIffStrong(s: string)
    ensures PasswordMatches(s) <==> StrongPassword(s)
  {
    if forall i :: 0 <= i < |s| ==> PasswordChar(s[i]) {
      LookaheadInPassword(s, IsLower);
      LookaheadInPassword(s, IsUpper);
      LookaheadInPassword(s, IsDigit);
      LookaheadInPassword(s, IsSpecial);
    }
  }

  // ---------------------------------------------------------------------
  // The six field checks
  // ---------------------------------------------------------------------

  const NameRequired := "Full name is required"
  const NameTooShort := "Name must be at least 2 characters"
  const PasswordRequired := "Password is required"
  const PasswordWeak := "Password must be at least 8 characters and include uppercase, lowercase, number, and special character"
  const ConfirmRequired := "Please confirm your password"
  const ConfirmMismatch := "Passwords do not match"
  const TermsRequired := "You must agree to the Terms of Service"
  const CaptchaRequired := "Please verify that you are not a robot"

  /** `validateName`. */
  function NameError(name: string): Option<string>
  {
    if Trim(name) == "" then Some(NameRequired)
    else if |Trim(name)| < 2 then Some(NameTooShort)
    else None
  }

  /**
   * A name passes exactly when it has at least two characters once trimmed;
   * a blank name is "required", a one-character name "too short".
   */
  lemma NameErrorCases(name: string)
    ensures AllSpace(name) ==> NameError(name) == Some(NameRequired)
    ensures |Trim(name)| == 1 ==> NameError(name) == Some(NameTooShort)
    ensures NameError(name).None? <==> |Trim(name)| >= 2
  {
    TrimEmptyIffAllSpace(name);
  }

  /** `validatePassword`. */
  function PasswordError(password: string): Option<string>
  {
    if password == "" then Some(PasswordRequired)
    else if !PasswordMatches(password) then Some(PasswordWeak)
    else None
  }

  /** A password passes exactly when it is strong; an empty one is "required", any other weak one "weak". */
  lemma PasswordErrorCases(password: string)
    ensures password == "" ==> PasswordError(password) == Some(PasswordRequired)
    ensures password != "" && !StrongPassword(password) ==> PasswordError(password) == Some(PasswordWeak)
    ensures PasswordError(password).None? <==> StrongPassword(password)
  {
    PasswordMatchesIffStrong(password);
  }

  /** `validateConfirmPassword` against the password `password`. */
  function ConfirmError(confirm: string, password: string): (r: Option<string>)
    ensures confirm == "" ==> r == Some(ConfirmRequired)
    ensures confirm != "" && confirm != password ==> r == Some(ConfirmMismatch)
    ensures r.None? <==> confirm != "" && confirm == password
  {
    if confirm == "" then Some(ConfirmRequired)
    else if confirm != password then Some(ConfirmMismatch)
    else None
  }

  /** `validateTerms`. */
  function TermsError(agreed: bool): (r: Option<string>)
    ensures r.None? <==> agreed
  {
    if !agreed then Some(TermsRequired) else None
  }

  /** `validateCaptcha`. */
  function CaptchaError(verified: bool): (r: Option<string>)
    ensures r.None? <==> verified
  {
    if !verified then Some(CaptchaRequired) else None
  }

  // ---------------------------------------------------------------------
  // The password field's re-check of the confirmation
  // ---------------------------------------------------------------------

  /**
   * The confirmation message after the password changes from `oldPassword`
   * to `newPassword`, as the handler is written: the handler's `password`
   * is the value from before the edit.
   */
  function ConfirmAfterPasswordEditAsWritten(oldPassword: string, newPassword: string, confirm: string,
                                             shown: Option<string>): Option<string>
  {
    if confirm != "" then ConfirmError(confirm, oldPassword) else shown
  }

  /** The intended re-check, against the new password. */
  function ConfirmAfterPasswordEdit(newPassword: string, confirm: string, shown: Option<string>): (r: Option<string>)
    ensures confirm == "" ==> r == shown
    ensures confirm != "" ==> (r.None? <==> confirm == newPassword)
  {
    if confirm != "" then ConfirmError(confirm, newPassword) else shown
  }

  /**
   * Typing one more character after a matching pair clears the mismatch
   * message as written, although the two fields now differ.
   */
  lemma StaleConfirmCheck()
    ensures ConfirmAfterPasswordEditAsWritten("Secret1!", "Secret1!x", "Secret1!", None).None?
    ensures ConfirmAfterPasswordEdit("Secret1!x", "Secret1!", None) == Some(ConfirmMismatch)
  {
    assert "Secret1!" != "Secret1!x" by {
      assert |"Secret1!"| != |"Secret1!x"|;
    }
  }

  // ---------------------------------------------------------------------
  // The form
  // ---------------------------------------------------------------------

  /** What is sent to the registration service. */
  datatype Credentials = Credentials(name: string, email: string, password: string, role: string)

  /** How the registration service answered. */
  datatype RegisterResponse = Registered | Refused(error: Option<string>) | Crashed

  const RegisterFailed := "Registration failed. Please try again."
  const Unexpected := "An unexpected error occurred. Please try again."
  const LoginRoute := "/login"

  /** The fields of the form: the inputs, the service error and one message per field. */
  datatype FormState = FormState(
    name: string, email: string, password: string, confirmPassword: string, role: string,
    agreedToTerms: bool, captchaVerified: bool, error: Option<string>,
    nameError: Option<string>, emailError: Option<string>, passwordError: Option<string>,
    confirmPasswordError: Option<string>, termsError: Option<string>, captchaError: Option<string>)

  const InitialForm := FormState("", "", "", "", "student", false, false, None, None, None, None, None, None, None)

  /** Every field passes its check. */
  predicate AllValid(f: FormState)
  {
    NameError(f.name).None? && EmailError(f.email).None? && PasswordError(f.password).None?
    && ConfirmError(f.confirmPassword, f.password).None? && TermsError(f.agreedToTerms).None?
    && CaptchaError(f.captchaVerified).None?
  }

  /** A form passes exactly when the name, e-mail and password have the described shapes and the rest agree. */
  lemma AllValidMeans(f: FormState)
    ensures AllValid(f) <==>
      |Trim(f.name)| >= 2 && EmailShape(f.email) && StrongPassword(f.password)
      && f.confirmPassword == f.password && f.agreedToTerms && f.captchaVerified
  {
    NameErrorCases(f.name);
    EmailErrorCases(f.email);
    PasswordErrorCases(f.password);
    if f.confirmPassword == f.password && StrongPassword(f.password) {
      assert |f.password| >= 8;
    }
  }

  /** The form's messages after `handleRegister` has run its six checks. */
  function Checked(f: FormState): FormState
  {
    f.(nameError := NameError(f.name), emailError := EmailError(f.email),
       passwordError := PasswordError(f.password),
       confirmPasswordError := ConfirmError(f.confirmPassword, f.password),
       termsError := TermsError(f.agreedToTerms), captchaError := CaptchaError(f.captchaVerified))
  }

  /** After the six checks every message is empty exactly when the form passes. */
  lemma CheckedPasses(f: FormState)
    ensures var r := Checked(f);
      AllValid(f) <==>
        r.nameError.None? && r.emailError.None? && r.passwordError.None?
        && r.confirmPasswordError.None? && r.termsError.None? && r.captchaError.None?
  {
  }

  /** Running the checks twice shows the same messages as running them once. */
  lemma CheckedIdempotent(f: FormState)
    ensures Checked(Checked(f)) == Checked(f)
  {
  }

  class Form {
    var name: string
    var email: string
    var password: string
    var confirmPassword: string
    var role: string
    var agreedToTerms: bool
    var captchaVerified: bool
    var error: Option<string>
    var nameError: Option<string>
    var emailError: Option<string>
    var passwordError: Option<string>
    var confirmPasswordError: Option<string>
    var termsError: Option<string>
    var captchaError: Option<string>

    function State(): FormState
      reads this
    {
      FormState(name, email, password, confirmPassword, role, agreedToTerms, captchaVerified, error,
                nameError, emailError, passwordError, confirmPasswordError, termsError, captchaError)
    }

    constructor()
      ensures State() == InitialForm
    {
      name, email, password, confirmPassword, role := "", "", "", "", "student";
      agreedToTerms, captchaVerified, error := false, false, None;
      nameError, emailError, passwordError := None, None, None;
      confirmPasswordError, termsError, captchaError := None, None, None;
    }

    method ChangeName(value: string)
      modifies this
      ensures State() == old(State()).(name := value, nameError := NameError(value))
    {
      name := value;
      nameError := NameError(value);
    }

    method ChangeEmail(value: string)
      modifies this
      ensures State() == old(State()).(email := value, emailError := EmailError(value))
    {
      email := value;
      emailError := EmailError(value);
    }

    /**
     * `handlePasswordChange`: the password is checked, and a non-empty
     * confirmation is checked again against the new password.
     */
    method ChangePassword(value: string)
      modifies this
      ensures State() == old(State()).(
        password := value, passwordError := PasswordError(value),
        confirmPasswordError := ConfirmAfterPasswordEdit(value, old(confirmPassword), old(confirmPasswordError)))
    {
      password := value;
      passwordError := PasswordError(value);
      if confirmPassword != "" {
        confirmPasswordError := ConfirmError(confirmPassword, value);
      }
    }

    method ChangeConfirmPassword(value: string)
      modifies this
      ensures State() == old(State()).(confirmPassword := value,
                                       confirmPasswordError := ConfirmError(value, old(password)))
    {
      confirmPassword := value;
      confirmPasswordError := ConfirmError(value, password);
    }

    method ChangeRole(value: string)
      modifies this
      ensures State() == old(State()).(role := value)
    {
      role := value;
    }

    method ChangeTerms(checked: bool)
      modifies this
      ensures State() == old(State()).(agreedToTerms := checked, termsError := TermsError(checked))
    {
      agreedToTerms := checked;
      termsError := TermsError(checked);
    }

    /** `handleCaptchaChange`: the captcha counts as solved and its message goes. */
    method SolveCaptcha()
      modifies this
      ensures State() == old(State()).(captchaVerified := true, captchaError := None)
    {
      captchaVerified := true;
      captchaError := None;
    }

    /**
     * The checks of `handleRegister`: all six messages are refreshed, and the
     * credentials to send come back, with the error cleared, only when every
     * field passes.
     */
    /** Shows the six field messages of `f`; every other field is kept. */
    method ShowErrors(f: FormState)
      modifies this
      ensures State() == old(State()).(nameError := f.nameError, emailError := f.emailError,
        passwordError := f.passwordError, confirmPasswordError := f.confirmPasswordError,
        termsError := f.termsError, captchaError := f.captchaError)
    {
      nameError, emailError, passwordError := f.nameError, f.emailError, f.passwordError;
      confirmPasswordError, termsError, captchaError := f.confirmPasswordError, f.termsError, f.captchaError;
    }

    method Submit() returns (request: Option<Credentials>)
      modifies this
      ensures request.Some? <==> AllValid(old(State()))
      ensures request.Some? ==> request.value == Credentials(name, email, password, role)
      ensures State() == if AllValid(old(State())) then Checked(old(State())).(error := None)
                         else Checked(old(State()))
    {
      var checked := Checked(State());
      CheckedPasses(State());
      ShowErrors(checked);
      if checked.nameError.None? && checked.emailError.None? && checked.passwordError.None?
         && checked.confirmPasswordError.None? && checked.termsError.None? && checked.captchaError.None? {
        error := None;
        request := Some(Credentials(name, email, password, role));
      } else {
        request := None;
      }
    }

    /**
     * The answer of the service: success leads to the login page; a refusal
     * shows its message, or a stock one when it has none; a crash shows the
     * unexpected-error message.
     */
    method Answer(response: RegisterResponse) returns (redirect: Option<string>)
      modifies this
      ensures response == Registered ==> redirect == Some(LoginRoute) && State() == old(State())
      ensures response.Refused? ==>
        redirect == None
        && State() == old(State()).(error := Some(if response.error.Some? && response.error.value != ""
                                                  then response.error.value else RegisterFailed))
      ensures response == Crashed ==> redirect == None && State() == old(State()).(error := Some(Unexpected))
    {
      match response
      case Registered =>
        redirect := Some(LoginRoute);
      case Refused(message) =>
        redirect := None;
        error := Some(if message.Some? && message.value != "" then message.value else RegisterFailed);
      case Crashed =>
        redirect := None;
        error := Some(Unexpected);
    }
  }
}
