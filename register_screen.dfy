/** `RegisterScreen.handleRegister`: six checks in a fixed order, the first failure ends the
    attempt with an alert, and only a form passing all six reaches `register`. */
module RegisterScreen {
  import opened Wrappers
  import opened JsText
  import Email
  import LoginScreen

  const NameRequired: string := "Por favor ingresa tu nombre"
  const EmailRequired: string := "Por favor ingresa tu correo electrónico"
  const EmailInvalid: string := "Por favor ingresa un correo electrónico válido"
  const PasswordRequired: string := "Por favor ingresa una contraseña"
  const PasswordTooShort: string := "La contraseña debe tener al menos 8 caracteres"
  const PasswordsDiffer: string := "Las contraseñas no coinciden"

  /** The minimum password length registration asks for. */
  const MinPasswordLength: nat := 8

  /** The arguments of `register(name, email, password)`. */
  datatype Registration = Registration(name: string, email: string, password: string)

  /** What pressing the button does: an alert with the first failed check, or a call of
      `register`, after which an alert repeats the context's error when it failed. */
  datatype Outcome =
    | Rejected(message: string)
    | Submitted(request: Registration, failureAlert: Option<string>)

  /** The form passes all six checks. */
  ghost predicate Acceptable(name: string, email: string, password: string, confirm: string) {
    !IsBlank(name) && Email.MatchesPattern(email) && |password| >= MinPasswordLength && password == confirm
  }

  function HandleRegister(name: string, email: string, password: string, confirm: string,
                          success: bool, contextError: string): (r: Outcome)
    ensures r.Submitted? <==> Acceptable(name, email, password, confirm)
    ensures r.Submitted? ==> r.request == Registration(name, email, password)
    ensures r.Submitted? ==> (r.failureAlert.Some? <==> !success && contextError != "")
    ensures r.Submitted? && r.failureAlert.Some? ==> r.failureAlert.value == contextError
    ensures IsBlank(name) ==> r == Rejected(NameRequired)
    ensures !IsBlank(name) && IsBlank(email) ==> r == Rejected(EmailRequired)
    ensures !IsBlank(name) && !IsBlank(email) && !Email.MatchesPattern(email) ==> r == Rejected(EmailInvalid)
    ensures !IsBlank(name) && Email.MatchesPattern(email) && password == "" ==> r == Rejected(PasswordRequired)
    ensures !IsBlank(name) && Email.MatchesPattern(email) && 0 < |password| < MinPasswordLength ==>
      r == Rejected(PasswordTooShort)
    ensures !IsBlank(name) && Email.MatchesPattern(email) &&
            |password| >= MinPasswordLength && password != confirm ==>
              r == Rejected(PasswordsDiffer)
  {
    Email.ValidEmailMatchesPattern(email);
    Email.MatchIsNotBlank(email);
    if IsBlank(name) then Rejected(NameRequired)
    else if IsBlank(email) then Rejected(EmailRequired)
    else if !Email.ValidEmail(email) then Rejected(EmailInvalid)
    else if password == "" then Rejected(PasswordRequired)
    else if |password| < MinPasswordLength then Rejected(PasswordTooShort)
    else if password != confirm then Rejected(PasswordsDiffer)
    else Submitted(Registration(name, email, password),
                   if !success && contextError != "" then Some(contextError) else None)
  }

  /** Whatever registration accepts, the login form accepts too: the same pattern guards the
      address and 8 characters exceed the login minimum of 6. */
  lemma RegisteredCredentialsPassLoginForm(name: string, email: string, password: string, confirm: string,
                                           success: bool, contextError: string)
    requires HandleRegister(name, email, password, confirm, success, contextError).Submitted?
    ensures LoginScreen.EmailProblem(email).None?
    ensures LoginScreen.PasswordProblem(password).None?
  {
  }
}
