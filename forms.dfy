/** The form state of `ui/LoginScreen.kt` and `ui/RegistrationScreen.kt`. The
    `remember { mutableStateOf(…) }` variables are fields updated by `onValueChange`;
    the `enabled = isFormValid` of each submit button is the `requires` of `Submit`,
    whose results are the arguments the screen passes to its callback. */
module Forms {
  import opened Wrappers
  import opened Text

  /** Some character of `s` is not whitespace. */
  ghost predicate HasVisible(s: string) {
    exists i :: 0 <= i < |s| && !IsWhitespace(s[i])
  }

  /** `isFormValid` of the login screen. */
  function LoginFormValid(email: string, pass: string): (r: bool)
    ensures r <==> HasVisible(email) && HasVisible(pass)
  {
    NotBlankIff(email);
    NotBlankIff(pass);
    !IsBlank(email) && !IsBlank(pass)
  }

  /** `isFormValid` of the registration screen; a valid form has a visible confirmation
      too, since it equals the password. */
  function RegistrationFormValid(email: string, pass: string, confirmPass: string): (r: bool)
    ensures r <==> HasVisible(email) && HasVisible(pass) && pass == confirmPass
    ensures r ==> HasVisible(confirmPass)
  {
    NotBlankIff(email);
    NotBlankIff(pass);
    !IsBlank(email) && !IsBlank(pass) && pass == confirmPass
  }

  class LoginForm {
    var email: string
    var pass: string

    function IsFormValid(): bool
      reads this
    {
      LoginFormValid(email, pass)
    }

    /** Both fields start empty, so Sign In starts disabled. */
    constructor ()
      ensures email == "" && pass == "" && !IsFormValid()
    {
      email := "";
      pass := "";
    }

    method EmailChanged(value: string)
      modifies this
      ensures email == value && pass == old(pass)
    {
      email := value;
    }

    method PassChanged(value: string)
      modifies this
      ensures pass == value && email == old(email)
    {
      pass := value;
    }

    /** The clear icon, shown only while the email is not empty: empties the email,
        which disables Sign In whatever the password. */
    method ClearEmail()
      requires email != ""
      modifies this
      ensures email == "" && pass == old(pass) && !IsFormValid()
    {
      email := "";
    }

    /** Sign In, enabled only while the form is valid: `onLogin(email, pass)`. */
    method Submit() returns (submittedEmail: string, submittedPass: string)
      requires IsFormValid()
      ensures submittedEmail == email && submittedPass == pass
      ensures HasVisible(submittedEmail) && HasVisible(submittedPass)
    {
      submittedEmail, submittedPass := email, pass;
    }
  }

  class RegistrationForm {
    var email: string
    var pass: string
    var confirmPass: string
    var error: Option<string>

    /** No statement assigns `error`, so it stays null and the error text is never
        composed. */
    predicate Valid()
      reads this
    {
      error == None
    }

    function IsFormValid(): bool
      reads this
    {
      RegistrationFormValid(email, pass, confirmPass)
    }

    constructor ()
      ensures Valid() && email == "" && pass == "" && confirmPass == "" && !IsFormValid()
    {
      email := "";
      pass := "";
      confirmPass := "";
      error := None;
    }

    method EmailChanged(value: string)
      requires Valid()
      modifies this
      ensures Valid() && email == value && pass == old(pass) && confirmPass == old(confirmPass)
    {
      email := value;
    }

    method PassChanged(value: string)
      requires Valid()
      modifies this
      ensures Valid() && pass == value && email == old(email) && confirmPass == old(confirmPass)
    {
      pass := value;
    }

    method ConfirmPassChanged(value: string)
      requires Valid()
      modifies this
      ensures Valid() && confirmPass == value && email == old(email) && pass == old(pass)
    {
      confirmPass := value;
    }

    /** Register, enabled only while the form is valid: `onRegister(email, pass)`; the
        confirmation is not passed on. */
    method Submit() returns (submittedEmail: string, submittedPass: string)
      requires Valid() && IsFormValid()
      ensures submittedEmail == email && submittedPass == pass && submittedPass == confirmPass
      ensures HasVisible(submittedEmail) && HasVisible(submittedPass)
    {
      submittedEmail, submittedPass := email, pass;
    }
  }
}
