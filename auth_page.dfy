/** The sign-in / sign-up page: the password checks shown inline, the checks that stop a
    submit, and the page state that the inputs, the tabs and a submit update. The server
    call is not run: its answer is a parameter of the submit. */
module AuthPage {
  import opened Wrappers
  import opened Strings

  datatype AuthForm = AuthForm(name: string, email: string, password: string, confirmPassword: string)

  const EmptyAuthForm := AuthForm("", "", "", "")

  datatype AuthField = Name | Email | Password | ConfirmPassword

  function Get(f: AuthForm, field: AuthField): string {
    match field
    case Name => f.name
    case Email => f.email
    case Password => f.password
    case ConfirmPassword => f.confirmPassword
  }

  /** `{...formData, [name]: value}`: the named input takes the value, the others keep
      theirs. */
  function WithField(f: AuthForm, field: AuthField, value: string): (r: AuthForm)
    ensures Get(r, field) == value
    ensures forall other :: other != field ==> Get(r, other) == Get(f, other)
  {
    match field
    case Name => f.(name := value)
    case Email => f.(email := value)
    case Password => f.(password := value)
    case ConfirmPassword => f.(confirmPassword := value)
  }

  predicate PasswordsMatch(isLogin: bool, f: AuthForm) {
    isLogin || f.password == f.confirmPassword
  }

  /** The inline "passwords do not match" message. It only ever shows while signing up,
      and while it shows a submit makes no call; once it is gone, a long enough password
      with a typed confirmation gets through. */
  function ShowPasswordError(isLogin: bool, f: AuthForm): (r: bool)
    ensures r ==> !isLogin && SubmitCall(isLogin, f).None?
    ensures !r && Utf16Length(f.password) >= 8 && (isLogin || f.confirmPassword != "") ==>
              SubmitCall(isLogin, f).Some?
  {
    !isLogin && f.confirmPassword != "" && !PasswordsMatch(isLogin, f)
  }

  /** The inline "at least 8 characters" message, counted in UTF-16 units and not shown
      for an empty password. While it shows, neither mode makes a call; once it is gone, a
      non-empty password lets a login through. */
  function PasswordTooShort(f: AuthForm): (r: bool)
    ensures r ==> SubmitCall(true, f).None? && SubmitCall(false, f).None?
    ensures !r && f.password != "" ==> SubmitCall(true, f).Some?
  {
    Utf16Length(f.password) > 0 && Utf16Length(f.password) < 8
  }

  /** Whether the submit button is disabled: exactly when one of the two messages shows.
      A disabled button never hides a submit that would have made a call, and an enabled
      one makes the call unless the password or the sign-up confirmation is still empty. */
  function HasErrors(isLogin: bool, f: AuthForm): (r: bool)
    ensures r ==> SubmitCall(isLogin, f).None?
    ensures !r && f.password != "" && (isLogin || f.confirmPassword != "") ==>
              SubmitCall(isLogin, f).Some?
  {
    ShowPasswordError(isLogin, f) || PasswordTooShort(f)
  }

  datatype AuthCall = Login(email: string, password: string) | Register(name: string, email: string, password: string)

  /** The call a submit makes: none for a password under 8 UTF-16 units or, when signing
      up, one that differs from its confirmation; login ignores the confirmation. A call
      carries the form's own email and password, and its kind follows the mode. */
  function SubmitCall(isLogin: bool, f: AuthForm): (r: Option<AuthCall>)
    ensures r.Some? ==> Utf16Length(f.password) >= 8
    ensures r.Some? ==> r.value.email == f.email && r.value.password == f.password
    ensures r.Some? ==> (r.value.Login? <==> isLogin)
    ensures r.Some? && r.value.Register? ==> r.value.name == f.name
  {
    if Utf16Length(f.password) < 8 then None
    else if !isLogin && f.password != f.confirmPassword then None
    else if isLogin then Some(Login(f.email, f.password))
    else Some(Register(f.name, f.email, f.password))
  }

  /** Four emoji make a long enough password: each counts as two UTF-16 units. */
  lemma AstralPasswordAccepted()
    ensures var f := EmptyAuthForm.(password := "\U{1F600}\U{1F600}\U{1F600}\U{1F600}");
            !PasswordTooShort(f) && SubmitCall(true, f).Some?
  {
    Utf16LengthAllAstral("\U{1F600}\U{1F600}\U{1F600}\U{1F600}");
  }

  /** The converse fails: with an empty password, or with a sign-up confirmation still
      empty, the button is enabled and the submit does nothing. */
  lemma ButtonEnabledButBlocked(password: string)
    requires Utf16Length(password) >= 8
    ensures !HasErrors(true, EmptyAuthForm) && SubmitCall(true, EmptyAuthForm).None?
    ensures var f := EmptyAuthForm.(password := password);
            !HasErrors(false, f) && SubmitCall(false, f).None?
  {
  }

  /** In login mode the confirmation field plays no part. */
  lemma LoginIgnoresConfirmation(f: AuthForm, confirm: string)
    ensures SubmitCall(true, f.(confirmPassword := confirm)) == SubmitCall(true, f)
    ensures HasErrors(true, f.(confirmPassword := confirm)) == HasErrors(true, f)
  {
  }

  /** What the server answers a call: success, or a failure with the message it sent
      ("" when it sent none). */
  datatype ServerAnswer = Accepted | Refused(message: string)

  /** The error shown after a failed call: the server's message, or a default for the mode. */
  function FailureMessage(isLogin: bool, message: string): (r: string)
    ensures r != ""
    ensures message != "" ==> r == message
    ensures message == "" ==> r == (if isLogin then "Invalid credentials" else "Registration failed")
  {
    if message != "" then message
    else if isLogin then "Invalid credentials"
    else "Registration failed"
  }

  class AuthPageState {
    var isLogin: bool
    var authError: string
    var form: AuthForm

    constructor()
      ensures isLogin && authError == "" && form == EmptyAuthForm
    {
      isLogin := true;
      authError := "";
      form := EmptyAuthForm;
    }

    /** `handleChange`: one input changes and the error is cleared. */
    method HandleChange(field: AuthField, value: string)
      modifies this
      ensures form == WithField(old(form), field, value)
      ensures authError == "" && isLogin == old(isLogin)
    {
      if authError != "" {
        authError := "";
      }
      form := WithField(form, field, value);
    }

    /** The "Sign In" / "Sign Up" tabs: switch the mode and clear the error. */
    method SelectTab(login: bool)
      modifies this
      ensures isLogin == login && authError == "" && form == old(form)
    {
      isLogin := login;
      authError := "";
    }

    /** `handleSubmit`, given what the server answers. A successful registration switches
        to login mode; a failure shows its message. */
    method HandleSubmit(answer: ServerAnswer) returns (call: Option<AuthCall>)
      modifies this
      ensures call == SubmitCall(old(isLogin), old(form))
      ensures form == old(form)
      ensures call.None? ==> authError == "" && isLogin == old(isLogin)
      ensures call.Some? && answer.Accepted? ==> authError == "" && isLogin
      ensures call.Some? && answer.Refused? ==>
                authError == FailureMessage(old(isLogin), answer.message) && isLogin == old(isLogin)
    {
      authError := "";
      if Utf16Length(form.password) < 8 {
        return None;
      }
      if !isLogin && form.password != form.confirmPassword {
        return None;
      }
      if isLogin {
        call := Some(Login(form.email, form.password));
      } else {
        call := Some(Register(form.name, form.email, form.password));
      }
      match answer
      case Accepted =>
        if !isLogin {
          isLogin := true;
        }
      case Refused(message) =>
        authError := FailureMessage(isLogin, message);
    }
  }
}
