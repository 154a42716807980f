/**
 * The "new user" dialog (src/components/admin/CreateUserDialog.tsx): a
 * chain of client-side checks, the first failing one reported, then the
 * `createUser` server action run in a transition; the dialog cannot be
 * closed while that action is pending.
 */
module CreateUserDialog {
  import opened Wrappers
  import opened Strings
  import opened Database

  datatype UserForm = UserForm(firstName: string, lastName: string, email: string, password: string, role: UserRole)

  const EmptyForm := UserForm("", "", "", "", Technician)

  const NamesRequired := "Le prénom et le nom sont requis."
  const InvalidEmail := "Adresse email invalide."
  const PasswordTooShort := "Le mot de passe doit contenir au moins 6 caractères."
  const UnknownError := "Erreur inconnue."

  const MinPasswordLength := 6

  predicate NamesGiven(f: UserForm) {
    !IsBlank(f.firstName) && !IsBlank(f.lastName)
  }

  predicate EmailLooksValid(f: UserForm) {
    !IsBlank(f.email) && Includes(f.email, "@")
  }

  predicate PasswordLongEnough(f: UserForm) {
    |f.password| >= MinPasswordLength
  }

  /** The checks of `handleSubmit`, in order: the message of the first that fails, if any. */
  function Validate(f: UserForm): (error: Option<string>)
    ensures error.None? <==> NamesGiven(f) && EmailLooksValid(f) && PasswordLongEnough(f)
    ensures !NamesGiven(f) ==> error == Some(NamesRequired)
    ensures NamesGiven(f) && !EmailLooksValid(f) ==> error == Some(InvalidEmail)
    ensures NamesGiven(f) && EmailLooksValid(f) && !PasswordLongEnough(f) ==> error == Some(PasswordTooShort)
  {
    if !NamesGiven(f) then Some(NamesRequired)
    else if !EmailLooksValid(f) then Some(InvalidEmail)
    else if !PasswordLongEnough(f) then Some(PasswordTooShort)
    else None
  }

  /** The three messages are distinct, so the message tells which check failed. */
  lemma ValidationMessageIdentifiesCheck(f: UserForm)
    ensures Validate(f) == Some(InvalidEmail) ==> NamesGiven(f) && !EmailLooksValid(f)
    ensures Validate(f) == Some(PasswordTooShort) ==> NamesGiven(f) && EmailLooksValid(f) && !PasswordLongEnough(f)
  {
    assert |NamesRequired| != |InvalidEmail|;
    assert |NamesRequired| != |PasswordTooShort|;
  }

  /** A form without '@' in the e-mail is refused whatever the password, once the names are given. */
  lemma EmailWithoutAtIsRefused(f: UserForm)
    requires NamesGiven(f) && Lacks(f.email, '@')
    ensures Validate(f) == Some(InvalidEmail)
  {
    MissingCharNotIncluded(f.email, "@");
  }

  /** What `createUser` answers. */
  datatype CreateAnswer = Created | Failed(error: Option<string>)

  /** `result.error || 'Erreur inconnue.'` */
  function FailureMessage(error: Option<string>): (m: string)
    ensures m != ""
    ensures OrNull(error).Some? ==> m == error.value
  {
    OrNull(error).GetOr(UnknownError)
  }

  class Dialog {
    var isOpen: bool
    var isPending: bool
    var form: UserForm
    var fieldError: string

    constructor()
      ensures !isOpen && !isPending && form == EmptyForm && fieldError == ""
    {
      isOpen, isPending, form, fieldError := false, false, EmptyForm, "";
    }

    /** `resetForm`: every field empty, role technician, no error. */
    method ResetForm()
      modifies this
      ensures form == EmptyForm && fieldError == ""
      ensures isOpen == old(isOpen) && isPending == old(isPending)
    {
      form := EmptyForm;
      fieldError := "";
    }

    /** `handleOpen`: a fresh form in an open dialog. */
    method HandleOpen()
      modifies this
      ensures isOpen && form == EmptyForm && fieldError == "" && isPending == old(isPending)
    {
      ResetForm();
      isOpen := true;
    }

    /** `handleClose`: ignored while the action is pending, else closes and resets. */
    method HandleClose()
      modifies this
      ensures old(isPending) ==> isOpen == old(isOpen) && form == old(form) && fieldError == old(fieldError)
      ensures !old(isPending) ==> !isOpen && form == EmptyForm && fieldError == ""
      ensures isPending == old(isPending)
    {
      if !isPending {
        isOpen := false;
        ResetForm();
      }
    }

    /**
     * `handleSubmit` up to the server call: the first failing check is
     * reported and nothing is sent; otherwise the error is cleared and the
     * action starts (`called`), with the form as it is.
     */
    method HandleSubmit() returns (called: bool)
      modifies this
      ensures called <==> Validate(old(form)).None?
      ensures !called ==> fieldError == Validate(old(form)).value && isPending == old(isPending)
      ensures called ==> fieldError == "" && isPending
      ensures form == old(form) && isOpen == old(isOpen)
    {
      fieldError := "";
      var problem := Validate(form);
      if problem.Some? {
        fieldError := problem.value;
        return false;
      }
      isPending := true;
      return true;
    }

    /** The end of the transition: success closes and resets, failure keeps the dialog with the error. */
    method Settle(answer: CreateAnswer)
      modifies this
      ensures !isPending
      ensures answer.Created? ==> !isOpen && form == EmptyForm && fieldError == ""
      ensures answer.Failed? ==>
        isOpen == old(isOpen) && form == old(form) && fieldError == FailureMessage(answer.error)
    {
      match answer {
        case Created =>
          isOpen := false;
          ResetForm();
        case Failed(error) =>
          fieldError := FailureMessage(error);
      }
      isPending := false;
    }
  }
}
