/** `LoginScreen`: the form fields, their error messages and the gating of `login`. */
module LoginScreen {
  import opened Wrappers
  import opened JsText
  import Email

  const EmailRequired: string := "El correo electrónico es obligatorio"
  const EmailInvalid: string := "Introduce un correo electrónico válido"
  const PasswordRequired: string := "La contraseña es obligatoria"
  const PasswordTooShort: string := "La contraseña debe tener al menos 6 caracteres"
  const LoginRejected: string := "Error al iniciar sesión. Comprueba tus credenciales e intenta de nuevo."
  const LoginCrashed: string := "Ha ocurrido un error. Por favor, intenta de nuevo más tarde."

  /** The minimum password length the login form asks for. */
  const MinPasswordLength: nat := 6

  /** The message `validateEmail` leaves, or `None` when the address is accepted. */
  function EmailProblem(email: string): (r: Option<string>)
    ensures r.None? <==> Email.MatchesPattern(email)
    ensures IsBlank(email) ==> r == Some(EmailRequired)
    ensures !IsBlank(email) && !Email.MatchesPattern(email) ==> r == Some(EmailInvalid)
  {
    Email.ValidEmailMatchesPattern(email);
    Email.MatchIsNotBlank(email);
    if IsBlank(email) then Some(EmailRequired)
    else if !Email.ValidEmail(email) then Some(EmailInvalid)
    else None
  }

  /** The message `validatePassword` leaves, or `None` when the password is accepted. */
  function PasswordProblem(password: string): (r: Option<string>)
    ensures r.None? <==> |password| >= MinPasswordLength
    ensures password == "" ==> r == Some(PasswordRequired)
    ensures 0 < |password| < MinPasswordLength ==> r == Some(PasswordTooShort)
  {
    if password == "" then Some(PasswordRequired)
    else if |password| < MinPasswordLength then Some(PasswordTooShort)
    else None
  }

  /** The outcome of the `login` call of the authentication context. */
  datatype LoginOutcome = NotCalled | Accepted | Rejected | Crashed

  class LoginForm {
    var email: string
    var password: string
    var emailError: string
    var passwordError: string
    var loginError: string

    /** The form as first shown: everything empty. */
    constructor ()
      ensures email == "" && password == ""
      ensures emailError == "" && passwordError == "" && loginError == ""
    {
      email, password := "", "";
      emailError, passwordError, loginError := "", "", "";
    }

    /** Typing an address clears its error and the login error. */
    method SetEmail(value: string)
      modifies this
      ensures email == value && emailError == "" && loginError == ""
      ensures password == old(password) && passwordError == old(passwordError)
    {
      email := value;
      emailError := "";
      loginError := "";
    }

    /** Typing a password clears its error and the login error. */
    method SetPassword(value: string)
      modifies this
      ensures password == value && passwordError == "" && loginError == ""
      ensures email == old(email) && emailError == old(emailError)
    {
      password := value;
      passwordError := "";
      loginError := "";
    }

    /** `validateEmail(email)` */
    method ValidateEmail() returns (ok: bool)
      modifies this
      ensures ok <==> Email.MatchesPattern(email)
      ensures emailError == (var p := EmailProblem(email); if p.Some? then p.value else "")
      ensures email == old(email) && password == old(password)
      ensures passwordError == old(passwordError) && loginError == old(loginError)
    {
      var problem := EmailProblem(email);
      if problem.Some? {
        emailError := problem.value;
        ok := false;
      } else {
        emailError := "";
        ok := true;
      }
    }

    /** `validatePassword(password)` */
    method ValidatePassword() returns (ok: bool)
      modifies this
      ensures ok <==> |password| >= MinPasswordLength
      ensures passwordError == (var p := PasswordProblem(password); if p.Some? then p.value else "")
      ensures email == old(email) && password == old(password)
      ensures emailError == old(emailError) && loginError == old(loginError)
    {
      var problem := PasswordProblem(password);
      if problem.Some? {
        passwordError := problem.value;
        ok := false;
      } else {
        passwordError := "";
        ok := true;
      }
    }

    /** `handleLogin()`: both validators run (each sets its own message) and `login` is
        called only when both accept. `login` answers through `response`; `contextError` is
        the authentication context's `error` as this render saw it. */
    method HandleLogin(response: Call<bool>, contextError: string) returns (outcome: LoginOutcome)
      modifies this
      ensures email == old(email) && password == old(password)
      ensures emailError == (var p := EmailProblem(email); if p.Some? then p.value else "")
      ensures passwordError == (var p := PasswordProblem(password); if p.Some? then p.value else "")
      ensures outcome != NotCalled <==> Email.MatchesPattern(email) && |password| >= MinPasswordLength
      ensures outcome == NotCalled ==> loginError == ""
      ensures outcome != NotCalled ==>
        match response
        case Returned(true) => outcome == Accepted && loginError == ""
        case Returned(false) =>
          outcome == Rejected && loginError == (if contextError == "" then LoginRejected else contextError)
        case Threw(_) => outcome == Crashed && loginError == LoginCrashed
    {
      loginError := "";
      var emailOk := ValidateEmail();
      var passwordOk := ValidatePassword();
      if !emailOk || !passwordOk {
        return NotCalled;
      }
      match response {
      case Returned(success) =>
        if success {
          outcome := Accepted;
        } else {
          loginError := if contextError == "" then LoginRejected else contextError;
          outcome := Rejected;
        }
      case Threw(_) =>
        loginError := LoginCrashed;
        outcome := Crashed;
      }
    }
  }
}
