/**
 * The login form: an e-mail and a password check that each set their own
 * message, a submit that sends the credentials only when both pass, and the
 * page each role is sent to after a successful login.
 */
module Login {
  import opened Opt
  import opened Text
  import opened EmailRule
  import Registration

  const PasswordRequired := "Password is required"
  const PasswordTooShort := "Password must be at least 8 characters"
  const LoginFailed := "Login failed. Please try again."
  const Unexpected := "An unexpected error occurred. Please try again."

  /** `validatePassword`: only presence and a length of at least eight characters are asked for. */
  function PasswordError(password: string): (r: Option<string>)
    ensures password == "" ==> r == Some(PasswordRequired)
    ensures password != "" && |password| < 8 ==> r == Some(PasswordTooShort)
    ensures r.None? <==> |password| >= 8
  {
    if password == "" then Some(PasswordRequired)
    else if |password| < 8 then Some(PasswordTooShort)
    else None
  }

  /** Every password the registration form accepts is accepted here. */
  lemma RegistrationPasswordLogsIn(password: string)
    requires Registration.PasswordError(password).None?
    ensures PasswordError(password).None?
  {
    Registration.PasswordErrorCases(password);
  }

  /** The converse fails: eight lower-case letters log in but do not register. */
  lemma LoginRuleIsWeaker()
    ensures PasswordError("abcdefgh").None? && Registration.PasswordError("abcdefgh").Some?
  {
    var p := "abcdefgh";
    Registration.PasswordErrorCases(p);
  }

  /** The signed-in user as the authentication service reports it. */
  datatype AuthUser = AuthUser(role: string)

  /** What is sent to the authentication service. */
  datatype LoginRequest = LoginRequest(email: string, password: string, rememberMe: bool)

  /** How the authentication service answered, or that the call threw. */
  datatype LoginResponse = Answered(success: bool, user: Option<AuthUser>, error: Option<string>) | Crashed

  /** The dashboard each role is sent to; any other role goes to "/home". */
  function RoleRedirect(role: string): (route: string)
    ensures role == "student" <==> route == "/student-dashboard"
    ensures role == "instructor" <==> route == "/instructor-dashboard"
    ensures role == "admin" <==> route == "/admin-dashboard"
    ensures role !in {"student", "instructor", "admin"} <==> route == "/home"
  {
    match role
    case "student" => "/student-dashboard"
    case "instructor" => "/instructor-dashboard"
    case "admin" => "/admin-dashboard"
    case _ => "/home"
  }

  /** The message a failed social login shows. */
  function ProviderFailed(provider: string): string
  {
    "Failed to login with " + provider + ". Please try again."
  }

  /**
   * What `loginWithProvider` resolves to. It catches every error of the
   * OAuth call itself, so it never throws: it either starts the redirect or
   * resolves to a refusal with a message.
   */
  datatype ProviderResponse = ProviderStarted | ProviderRefused(message: string)

  datatype LoginState = LoginState(
    email: string, password: string, rememberMe: bool, isLoading: bool, error: Option<string>,
    emailError: Option<string>, passwordError: Option<string>)

  const InitialLogin := LoginState("", "", false, false, None, None, None)

  /**
   * `handleSocialLogin` as written: loading starts and the error clears, then
   * the resolved value is never read, and the `catch` that would show the
   * failure and end loading never runs.
   */
  function SocialLoginAsWritten(s: LoginState, provider: string, response: ProviderResponse): LoginState
  {
    s.(isLoading := true, error := None)
  }

  /** As written, a refused provider login leaves the page loading with no message. */
  lemma SocialLoginStuckAsWritten(s: LoginState, provider: string, message: string)
    ensures var r := SocialLoginAsWritten(s, provider, ProviderRefused(message));
      r.isLoading && r.error.None?
  {
  }

  /**
   * The intended handling: a started redirect keeps the page loading with no
   * error; a refusal shows the page's failure message and ends loading.
   */
  function SocialLoginOutcome(s: LoginState, provider: string, response: ProviderResponse): (r: LoginState)
    ensures r.(isLoading := s.isLoading, error := s.error) == s
    ensures r.isLoading <==> response.ProviderStarted?
    ensures response.ProviderStarted? ==> r.error.None?
    ensures response.ProviderRefused? ==> r.error == Some(ProviderFailed(provider))
  {
    match response
    case ProviderStarted => s.(isLoading := true, error := None)
    case ProviderRefused(_) => s.(isLoading := false, error := Some(ProviderFailed(provider)))
  }

  /** The intended handling agrees with the code as written whenever the redirect starts. */
  lemma SocialLoginAgreesOnStart(s: LoginState, provider: string)
    ensures SocialLoginOutcome(s, provider, ProviderStarted) == SocialLoginAsWritten(s, provider, ProviderStarted)
  {
  }

  class Form {
    var email: string
    var password: string
    var rememberMe: bool
    var isLoading: bool
    var error: Option<string>
    var emailError: Option<string>
    var passwordError: Option<string>

    function State(): LoginState
      reads this
    {
      LoginState(email, password, rememberMe, isLoading, error, emailError, passwordError)
    }

    constructor()
      ensures State() == InitialLogin
    {
      email, password, rememberMe, isLoading := "", "", false, false;
      error, emailError, passwordError := None, None, None;
    }

    method ChangeEmail(value: string)
      modifies this
      ensures State() == old(State()).(email := value, emailError := EmailError(value))
    {
      email := value;
      emailError := EmailError(value);
    }

    method ChangePassword(value: string)
      modifies this
      ensures State() == old(State()).(password := value, passwordError := PasswordError(value))
    {
      password := value;
      passwordError := PasswordError(value);
    }

    method ChangeRememberMe(checked: bool)
      modifies this
      ensures State() == old(State()).(rememberMe := checked)
    {
      rememberMe := checked;
    }

    /**
     * The checks of `handleLogin`: both messages are refreshed, and only when
     * both fields pass does loading start, the error clear and the
     * credentials go out.
     */
    method Submit() returns (request: Option<LoginRequest>)
      modifies this
      ensures request.Some? <==> EmailShape(old(email)) && |old(password)| >= 8
      ensures request.Some? ==> request.value == LoginRequest(email, password, rememberMe)
      ensures var checked := old(State()).(emailError := EmailError(old(email)),
                                           passwordError := PasswordError(old(password)));
        State() == if request.Some? then checked.(isLoading := true, error := None) else checked
    {
      EmailErrorCases(email);
      emailError := EmailError(email);
      passwordError := PasswordError(password);
      if emailError.None? && passwordError.None? {
        isLoading := true;
        error := None;
        request := Some(LoginRequest(email, password, rememberMe));
      } else {
        request := None;
      }
    }

    /**
     * The answer of the service. A success that names a user leads to the
     * user's dashboard; anything else shows the service's message, or a stock
     * one when it has none; a crash shows the unexpected-error message.
     * Loading ends in every case.
     */
    method Answer(response: LoginResponse) returns (redirect: Option<string>)
      modifies this
      ensures response.Answered? && response.success && response.user.Some? ==>
        redirect == Some(RoleRedirect(response.user.value.role))
        && State() == old(State()).(isLoading := false)
      ensures response.Answered? && !(response.success && response.user.Some?) ==>
        redirect == None
        && State() == old(State()).(isLoading := false,
                                    error := Some(if response.error.Some? && response.error.value != ""
                                                  then response.error.value else LoginFailed))
      ensures response == Crashed ==>
        redirect == None && State() == old(State()).(isLoading := false, error := Some(Unexpected))
    {
      match response {
        case Answered(success, user, message) =>
          if success && user.Some? {
            redirect := Some(RoleRedirect(user.value.role));
          } else {
            redirect := None;
            error := Some(if message.Some? && message.value != "" then message.value else LoginFailed);
          }
        case Crashed =>
          redirect := None;
          error := Some(Unexpected);
      }
      isLoading := false;
    }

    /**
     * `handleSocialLogin`, with the settling the page evidently intends: the
     * state `SocialLoginOutcome` gives for the provider's answer.
     */
    method SocialLogin(provider: string, response: ProviderResponse)
      modifies this
      ensures State() == SocialLoginOutcome(old(State()), provider, response)
    {
      isLoading := true;
      error := None;
      if response.ProviderRefused? {
        error := Some(ProviderFailed(provider));
        isLoading := false;
      }
    }
  }
}
