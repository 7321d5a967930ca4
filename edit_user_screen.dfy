/** `EditUserScreen`: an administrator's form over one user, loaded from `/users/:id` and
    saved back with a PUT once the three checks pass. */
module EditUserScreen {
  import opened Wrappers
  import opened JsText
  import opened Domain
  import Email

  const NameRequired: string := "Por favor ingresa un nombre para el usuario"
  const EmailRequired: string := "Por favor ingresa un correo electrónico"
  const EmailInvalid: string := "Por favor ingresa un correo electrónico válido"
  const LoadFailed: string := "No se pudo cargar la información del usuario"
  const SaveFailed: string := "No se pudo actualizar el usuario. Inténtalo de nuevo."
  const DefaultRole: string := "user"

  /** `response.data` of `GET /users/:id`; any field may be missing. */
  datatype PermissionsDoc = PermissionsDoc(isOperator: Option<bool>, isAssistant: Option<bool>)
  datatype UserDoc = UserDoc(name: Option<string>, email: Option<string>, role: Option<string>,
                             permissions: Option<PermissionsDoc>)

  /** The five form fields. */
  datatype UserForm = UserForm(name: string, email: string, role: string, isOperator: bool, isAssistant: bool)

  /** The body of `PUT /users/:id`. */
  datatype UserPayload = UserPayload(name: string, email: string, role: string, permissions: Permissions)

  /** `x || fallback` for a string the backend may omit. */
  function OrElse(s: Option<string>, fallback: string): string {
    if s.Some? && !Falsy(s.value) then s.value else fallback
  }

  /** `x || false` for a flag the backend may omit. */
  function FlagOf(p: Option<PermissionsDoc>, operator: bool): bool {
    if p.None? then false
    else
      var flag := if operator then p.value.isOperator else p.value.isAssistant;
      flag.Some? && flag.value
  }

  /** `loadUserData()`: the form filled from the loaded user, missing fields defaulted. */
  function FormFromDoc(doc: UserDoc): (f: UserForm)
    ensures f.role != ""
    ensures doc.name.None? ==> f.name == ""
    ensures doc.name.Some? ==> f.name == doc.name.value
    ensures doc.email.None? ==> f.email == ""
    ensures doc.email.Some? ==> f.email == doc.email.value
    ensures doc.role.None? || Falsy(doc.role.value) ==> f.role == DefaultRole
    ensures doc.role.Some? && !Falsy(doc.role.value) ==> f.role == doc.role.value
    ensures f.isOperator <==> doc.permissions.Some? && doc.permissions.value.isOperator == Some(true)
    ensures f.isAssistant <==> doc.permissions.Some? && doc.permissions.value.isAssistant == Some(true)
  {
    UserForm(OrElse(doc.name, ""), OrElse(doc.email, ""), OrElse(doc.role, DefaultRole),
             FlagOf(doc.permissions, true), FlagOf(doc.permissions, false))
  }

  /** `validateForm()`: the message of the first failed check, or `None`. */
  function FormProblem(f: UserForm): (r: Option<string>)
    ensures r.None? <==> !IsBlank(f.name) && Email.MatchesPattern(f.email)
    ensures IsBlank(f.name) ==> r == Some(NameRequired)
    ensures !IsBlank(f.name) && IsBlank(f.email) ==> r == Some(EmailRequired)
    ensures !IsBlank(f.name) && !IsBlank(f.email) && !Email.MatchesPattern(f.email) ==> r == Some(EmailInvalid)
  {
    Email.ValidEmailMatchesPattern(f.email);
    Email.MatchIsNotBlank(f.email);
    if IsBlank(f.name) then Some(NameRequired)
    else if IsBlank(f.email) then Some(EmailRequired)
    else if !Email.ValidEmail(f.email) then Some(EmailInvalid)
    else None
  }

  function Payload(f: UserForm): UserPayload {
    UserPayload(f.name, f.email, f.role, Permissions(f.isOperator, f.isAssistant))
  }

  /** Saving a user whose record is complete without editing it sends the record back as
      loaded; a missing or empty role is sent as "user" and missing flags as false. */
  lemma {:induction false} UneditedSaveRoundTrip(doc: UserDoc)
    requires doc.name.Some? && doc.email.Some?
    ensures Payload(FormFromDoc(doc)).name == doc.name.value
    ensures Payload(FormFromDoc(doc)).email == doc.email.value
    ensures Payload(FormFromDoc(doc)).role == OrElse(doc.role, DefaultRole)
    ensures doc.permissions.Some? && doc.permissions.value.isOperator.Some? &&
            doc.permissions.value.isAssistant.Some? ==>
              Payload(FormFromDoc(doc)).permissions ==
                Permissions(doc.permissions.value.isOperator.value, doc.permissions.value.isAssistant.value)
  {
    var f := FormFromDoc(doc);
    assert f.name == doc.name.value;
  }

  class EditUserForm {
    var name: string
    var email: string
    var role: string
    var isOperator: bool
    var isAssistant: bool
    var isLoading: bool
    var isSaving: bool
    var error: Option<string>

    function Form(): UserForm
      reads this
    {
      UserForm(name, email, role, isOperator, isAssistant)
    }

    /** The form before the user is loaded. */
    constructor ()
      ensures Form() == UserForm("", "", DefaultRole, false, false)
      ensures isLoading && !isSaving && error == None
    {
      name, email, role := "", "", DefaultRole;
      isOperator, isAssistant := false, false;
      isLoading, isSaving, error := true, false, None;
    }

    /** `loadUserData()`: fills the form, or keeps it and reports the failure. */
    method LoadUserData(response: Call<UserDoc>)
      modifies this
      ensures !isLoading && isSaving == old(isSaving)
      ensures response.Returned? ==> Form() == FormFromDoc(response.value) && error == old(error)
      ensures response.Threw? ==> Form() == old(Form()) && error == Some(LoadFailed)
    {
      isLoading := true;
      match response {
      case Returned(doc) =>
        var f := FormFromDoc(doc);
        name, email, role := f.name, f.email, f.role;
        isOperator, isAssistant := f.isOperator, f.isAssistant;
      case Threw(_) =>
        error := Some(LoadFailed);
      }
      isLoading := false;
    }

    /** `handleSaveChanges()`: the PUT goes out, with exactly the form's fields, only when
        `validateForm` passes; `putOk` says whether it succeeded. */
    method HandleSaveChanges(putOk: bool) returns (sent: Option<UserPayload>, alert: Option<string>)
      modifies this
      ensures Form() == old(Form()) && isLoading == old(isLoading)
      ensures isSaving == (if sent.Some? then false else old(isSaving))
      ensures sent.Some? <==> FormProblem(Form()).None?
      ensures sent.Some? ==> sent.value == Payload(Form()) && alert == None
      ensures sent.None? ==> alert == FormProblem(Form()) && error == old(error)
      ensures sent.Some? ==> error == (if putOk then None else Some(SaveFailed))
    {
      var problem := FormProblem(Form());
      if problem.Some? {
        return None, problem;
      }
      isSaving := true;
      error := None;
      sent := Some(Payload(Form()));
      alert := None;
      if !putOk {
        error := Some(SaveFailed);
      }
      isSaving := false;
    }
  }
}
