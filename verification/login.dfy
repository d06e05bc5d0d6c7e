/** The sign-in form: the required-field check, the form data handed to the
    `login` action, the toast for its reply, and the show-password switch. */
module Login {
  import opened Common
  import opened FormDataModel

  const MissingCredentialsText := "Please provide both email and password."
  const WelcomeText := "Welcome back!"

  /** The toast for `login`'s reply: the error for a truthy `result?.error`,
      the welcome for anything else (including the `undefined` of a
      redirect). */
  function LoginFeedback(reply: Reply): (t: Toast)
    ensures t.ErrorToast? <==> HasError(reply)
    ensures t.ErrorToast? ==> t.text == reply.message
    ensures t.SuccessToast? ==> t.text == WelcomeText
  {
    if HasError(reply) then ErrorToast(reply.message) else SuccessToast(WelcomeText)
  }

  /** The entries `login` reads its email and password from. */
  lemma LoginReadsCredentials(email: string, password: string)
    ensures var es := [("email", email), ("password", password)];
            Lookup(es, "email") == Some(email) && Lookup(es, "password") == Some(password)
            && Lookup(es, "remember").None?
  {
    var es := [("email", email), ("password", password)];
    assert FirstNamed(es, "email", 0);
    assert FirstNamed(es, "password", 1);
  }

  class LoginForm {
    var email: string
    var password: string
    var remember: bool
    var showPassword: bool

    constructor ()
      ensures email == "" && password == "" && !remember && !showPassword
    {
      email := "";
      password := "";
      remember := false;
      showPassword := false;
    }

    method EditEmail(value: string)
      modifies this
      ensures email == value
      ensures password == old(password) && remember == old(remember) && showPassword == old(showPassword)
    {
      email := value;
    }

    method EditPassword(value: string)
      modifies this
      ensures password == value
      ensures email == old(email) && remember == old(remember) && showPassword == old(showPassword)
    {
      password := value;
    }

    /** The "Remember me" checkbox. Its value is kept but never sent. */
    method SetRemember(checked: bool)
      modifies this
      ensures remember == checked
      ensures email == old(email) && password == old(password) && showPassword == old(showPassword)
    {
      remember := checked;
    }

    /** The eye button next to the password. */
    method ToggleShowPassword()
      modifies this
      ensures showPassword == !old(showPassword)
      ensures PasswordInputType(showPassword) != PasswordInputType(old(showPassword))
      ensures email == old(email) && password == old(password) && remember == old(remember)
    {
      showPassword := !showPassword;
    }

    /** `handleSubmit`. With an empty email or password it shows the
        "provide both" toast and sends nothing. Otherwise it builds a
        `FormData` with exactly the email and the password, in that order,
        and `reply` is what `login` answers. */
    method HandleSubmit(reply: Reply) returns (toast: Toast, sent: Option<seq<(string, string)>>)
      ensures email == "" || password == "" ==>
                sent.None? && toast == ErrorToast(MissingCredentialsText)
      ensures email != "" && password != "" ==>
                && sent == Some([("email", email), ("password", password)])
                && toast == LoginFeedback(reply)
      ensures sent.Some? ==> forall i :: 0 <= i < |sent.value| ==> sent.value[i].0 != "remember"
    {
      if email == "" || password == "" {
        return ErrorToast(MissingCredentialsText), None;
      }
      var formData := new FormData();
      formData.Append("email", email);
      formData.Append("password", password);
      assert formData.entries == [("email", email), ("password", password)];
      sent := Some(formData.entries);
      toast := LoginFeedback(reply);
    }
  }
}
