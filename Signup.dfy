/**
  The sign-up page (`Signup`): a four-field form updated one field at a
  time, a `loading` flag and an error text. The only check on submit is that
  the two passwords agree; an accepted form leads to the sign-in page after a
  one-second timer, modelled as the separate step `Redirect`.
*/
module Signup {
  import opened Wrappers
  import opened AppState

  /** The form's inputs, by their `id`. */
  datatype Field = Name | Email | Password | ConfirmPassword

  datatype Form = Form(name: string, email: string, password: string, confirmPassword: string)

  const EmptyForm: Form := Form("", "", "", "")

  const MismatchText: string := "Passwords do not match"

  /** `formData[field]`. */
  function Get(f: Form, field: Field): string {
    match field
    case Name => f.name
    case Email => f.email
    case Password => f.password
    case ConfirmPassword => f.confirmPassword
  }

  /** `{ ...formData, [field]: value }`: the named field holds `value` and every other field is unchanged. */
  function WithField(f: Form, field: Field, value: string): (g: Form)
    ensures Get(g, field) == value
    ensures forall other: Field :: other != field ==> Get(g, other) == Get(f, other)
  {
    match field
    case Name => f.(name := value)
    case Email => f.(email := value)
    case Password => f.(password := value)
    case ConfirmPassword => f.(confirmPassword := value)
  }

  /** Writing a field and then another field in either order gives the same form when the fields differ. */
  lemma UpdatesCommute(f: Form, a: Field, x: string, b: Field, y: string)
    requires a != b
    ensures WithField(WithField(f, a, x), b, y) == WithField(WithField(f, b, y), a, x)
  {
  }

  /** The error a submission of `f` reports, if any: only a password mismatch is rejected. */
  function Validate(f: Form): (e: Option<string>)
    ensures e.Some? <==> f.password != f.confirmPassword
    ensures e.Some? ==> e.value == MismatchText
  {
    if f.password != f.confirmPassword then Some(MismatchText) else None
  }

  /** Name and email play no part in validation: forms with the same passwords validate alike. */
  lemma OnlyPasswordsChecked(f: Form, g: Form)
    requires f.password == g.password && f.confirmPassword == g.confirmPassword
    ensures Validate(f) == Validate(g)
  {
  }

  /** The empty form passes validation: both passwords are empty and so equal. */
  lemma EmptyFormAccepted()
    ensures Validate(EmptyForm).None?
  {
  }

  class SignupForm {
    var form: Form
    var loading: bool
    var error: string

    constructor()
      ensures form == EmptyForm && !loading && error == ""
    {
      form := EmptyForm;
      loading := false;
      error := "";
    }

    /** `handleChange` for the input with id `field`. */
    method HandleChange(field: Field, value: string)
      modifies this
      ensures form == WithField(old(form), field, value)
      ensures loading == old(loading) && error == old(error)
    {
      form := match field
        case Name => form.(name := value)
        case Email => form.(email := value)
        case Password => form.(password := value)
        case ConfirmPassword => form.(confirmPassword := value);
    }

    /**
      `handleSubmit` up to its timer. The error is cleared first. A password
      mismatch sets the mismatch text and clears `loading`; a match leaves
      `loading` set until `Redirect`. `accepted` says which.
    */
    method Submit() returns (accepted: bool)
      modifies this
      ensures accepted <==> old(form.password) == old(form.confirmPassword)
      ensures accepted ==> loading && error == ""
      ensures !accepted ==> !loading && error == MismatchText
      ensures Validate(old(form)).Some? ==> error == Validate(old(form)).value
      ensures form == old(form)
    {
      loading := true;
      error := "";
      if form.password != form.confirmPassword {
        error := MismatchText;
        loading := false;
        return false;
      }
      accepted := true;
    }

    /** The timer's callback: navigate to the sign-in page and clear `loading`. */
    method Redirect(app: App)
      modifies this, app
      ensures app.pathname == "/login" && !loading
      ensures app.auth == old(app.auth) && app.theme == old(app.theme)
      ensures app.bodyTheme == old(app.bodyTheme) && app.storage == old(app.storage)
      ensures form == old(form) && error == old(error)
    {
      app.pathname := "/login";
      loading := false;
    }

    /** A whole submission: an accepted form ends on the sign-in page, a rejected one stays where it is. */
    method SubmitAndWait(app: App)
      modifies this, app
      ensures Validate(old(form)).None? ==> app.pathname == "/login" && error == ""
      ensures Validate(old(form)).Some? ==> app.pathname == old(app.pathname) && error == MismatchText
      ensures !loading && form == old(form) && app.auth == old(app.auth)
      ensures app.theme == old(app.theme) && app.bodyTheme == old(app.bodyTheme) && app.storage == old(app.storage)
    {
      var accepted := Submit();
      if accepted {
        Redirect(app);
      }
    }
  }
}
