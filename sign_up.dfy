/** The sign-up page: four fields posted as they are, after checking the
    password against a confirmation that is kept outside the form. */
module SignUp {
  import opened Wrappers
  import Api
  import Js
  import Forms

  datatype SignUpForm = SignUpForm(name: string, phone: string, regKey: string, password: string)

  const Blank: SignUpForm := SignUpForm("", "", "", "")
  const MismatchMessage: string := "Passwords do not match."
  const FailureFallback: string := "Something went wrong."

  /** The inputs wired to `handleChange`, by their `name` attribute. */
  datatype InputField = Name | Phone | RegKey | Password

  function WithInput(form: SignUpForm, field: InputField, value: string): (r: SignUpForm)
    ensures field.Name? ==> r == SignUpForm(value, form.phone, form.regKey, form.password)
    ensures field.Phone? ==> r == SignUpForm(form.name, value, form.regKey, form.password)
    ensures field.RegKey? ==> r == SignUpForm(form.name, form.phone, value, form.password)
    ensures field.Password? ==> r == SignUpForm(form.name, form.phone, form.regKey, value)
  {
    match field
    case Name => form.(name := value)
    case Phone => form.(phone := value)
    case RegKey => form.(regKey := value)
    case Password => form.(password := value)
  }

  /** The posted body: the whole form, empty fields included. */
  function Entries(form: SignUpForm): (e: Js.Entries)
  {
    [("name", Js.Str(form.name)), ("phone", Js.Str(form.phone)),
     ("reg_key", Js.Str(form.regKey)), ("password", Js.Str(form.password))]
  }

  /** The body has exactly the four form keys, so the confirmation is never
      sent, and the password is sent as typed. */
  lemma BodyOmitsConfirmation(form: SignUpForm)
    ensures Js.Keys(Entries(form)) == ["name", "phone", "reg_key", "password"]
    ensures Js.Lookup(Entries(form), "confirmPassword").None?
    ensures Js.Lookup(Entries(form), "password") == Some(Js.Str(form.password))
  {
    assert Js.Keys(Entries(form)) == ["name", "phone", "reg_key", "password"];
  }

  /** The message is green exactly when the last outcome was a success;
      before any attempt `success` is `null` and would show red. */
  predicate MessageGreen(success: Option<bool>) { success == Some(true) }

  class SignUpPage {
    var formData: SignUpForm
    var confirmPassword: string
    var passwordVisible: bool
    var message: string
    var success: Option<bool>

    constructor ()
      ensures formData == Blank && confirmPassword == "" && !passwordVisible
      ensures message == "" && success.None?
    {
      formData := Blank;
      confirmPassword := "";
      passwordVisible := false;
      message := "";
      success := None;
    }

    method HandleChange(field: InputField, value: string)
      modifies this
      ensures formData == WithInput(old(formData), field, value)
      ensures confirmPassword == old(confirmPassword) && passwordVisible == old(passwordVisible)
      ensures message == old(message) && success == old(success)
    {
      formData := WithInput(formData, field, value);
    }

    /** The confirmation input writes its own state, not the form. */
    method SetConfirmPassword(value: string)
      modifies this
      ensures confirmPassword == value && formData == old(formData)
      ensures passwordVisible == old(passwordVisible) && message == old(message) && success == old(success)
    {
      confirmPassword := value;
    }

    method TogglePasswordVisible()
      modifies this
      ensures passwordVisible == !old(passwordVisible)
      ensures formData == old(formData) && confirmPassword == old(confirmPassword)
      ensures message == old(message) && success == old(success)
    {
      passwordVisible := !passwordVisible;
    }

    /** `handleClick`: the message is cleared first. A password that differs
        from the confirmation (exact comparison) ends the attempt with a red
        message and no request; otherwise the whole form is posted. */
    method StartSignUp() returns (request: Option<Js.Entries>)
      modifies this
      ensures formData == old(formData) && confirmPassword == old(confirmPassword)
      ensures passwordVisible == old(passwordVisible)
      ensures formData.password != confirmPassword ==>
        request.None? && success == Some(false) && message == MismatchMessage && !MessageGreen(success)
      ensures formData.password == confirmPassword ==>
        request == Some(Entries(formData)) && message == "" && success == old(success)
    {
      message := "";
      if formData.password != confirmPassword {
        success := Some(false);
        message := MismatchMessage;
        return None;
      }
      request := Some(Entries(formData));
    }

    /** A response's `success` and `message` are copied, and a successful one
        leads to the login page; a thrown error sets `success` to false with
        the server's message or the fallback. */
    method FinishSignUp(outcome: Api.Outcome<Api.Reply>) returns (navigateTo: Option<string>)
      modifies this
      ensures formData == old(formData) && confirmPassword == old(confirmPassword)
      ensures passwordVisible == old(passwordVisible)
      ensures success == Some(outcome.Success? && outcome.data.success)
      ensures message == Forms.SettledMessage(outcome, FailureFallback)
      ensures navigateTo == Forms.NavigationAfter(outcome, Forms.OnSuccessOnly, "/login")
      ensures navigateTo.Some? <==> MessageGreen(success)
    {
      match outcome {
        case Success(reply) =>
          success := Some(reply.success);
        case _ =>
          success := Some(false);
      }
      message := Forms.SettledMessage(outcome, FailureFallback);
      navigateTo := Forms.NavigationAfter(outcome, Forms.OnSuccessOnly, "/login");
    }
  }
}
