/**
 * The sign-in and sign-up modal shared by the whole site: which dialog is open, the form
 * fields, the error line and the loading flag. The authentication service is not modelled:
 * each call is split into the method that starts it (returning what is sent) and the method
 * that receives its ok-or-error answer.
 */
module LoginModalProvider {
  import opened Wrappers

  /** The modal's mode; `Closed` is the source's `null`. */
  datatype Mode = Closed | Login | Signup | CheckEmail

  /** What the authentication service answers. */
  datatype AuthResult = AuthOk | AuthError(message: string)

  /** What is sent to the authentication service. */
  datatype Credentials = Credentials(email: string, password: string)

  const PASSWORDS_MISMATCH := "Passwords do not match"
  const PASSWORD_TOO_SHORT := "Password must be at least 6 characters"
  const MIN_PASSWORD_LENGTH := 6

  /** The checks `handleEmailSignup` makes before calling the service: matching passwords
      first, then the minimum length. */
  function SignupPrecheck(password: string, confirmPassword: string): (error: Option<string>)
    ensures error.None? <==> password == confirmPassword && |password| >= MIN_PASSWORD_LENGTH
    ensures password != confirmPassword ==> error == Some(PASSWORDS_MISMATCH)
    ensures password == confirmPassword && |password| < MIN_PASSWORD_LENGTH ==> error == Some(PASSWORD_TOO_SHORT)
  {
    if password != confirmPassword then Some(PASSWORDS_MISMATCH)
    else if |password| < MIN_PASSWORD_LENGTH then Some(PASSWORD_TOO_SHORT)
    else None
  }

  /** Mismatched passwords are reported as such however short they are: a one-character
      password against an empty confirmation gets the mismatch message. */
  lemma MismatchReportedBeforeLength()
    ensures SignupPrecheck("a", "") == Some(PASSWORDS_MISMATCH)
    ensures SignupPrecheck("abc", "abc") == Some(PASSWORD_TOO_SHORT)
    ensures SignupPrecheck("secret", "secret").None?
  {
  }

  class LoginModal {
    var mode: Mode
    var email: string
    var password: string
    var confirmPassword: string
    var error: Option<string>
    var loading: bool

    /** The fields as `resetForm` leaves them. */
    predicate FormReset()
      reads this
    {
      error.None? && email == "" && password == "" && confirmPassword == "" && !loading
    }

    /** A request is only in flight from the dialog that sent it. */
    predicate Valid()
      reads this
    {
      loading ==> mode == Login || mode == Signup
    }

    constructor()
      ensures mode == Closed && FormReset() && Valid()
    {
      mode := Closed;
      email := "";
      password := "";
      confirmPassword := "";
      error := None;
      loading := false;
    }

    method ResetForm()
      modifies this
      ensures FormReset() && mode == old(mode)
    {
      error := None;
      email := "";
      password := "";
      confirmPassword := "";
      loading := false;
    }

    method OpenLogin()
      modifies this
      ensures FormReset() && mode == Login && Valid()
    {
      ResetForm();
      mode := Login;
    }

    method OpenSignup()
      modifies this
      ensures FormReset() && mode == Signup && Valid()
    {
      ResetForm();
      mode := Signup;
    }

    method Close()
      modifies this
      ensures FormReset() && mode == Closed && Valid()
    {
      mode := Closed;
      ResetForm();
    }

    method SetEmail(value: string)
      modifies this
      ensures email == value
      ensures mode == old(mode) && password == old(password) && confirmPassword == old(confirmPassword)
      ensures error == old(error) && loading == old(loading)
    {
      email := value;
    }

    method SetPassword(value: string)
      modifies this
      ensures password == value
      ensures mode == old(mode) && email == old(email) && confirmPassword == old(confirmPassword)
      ensures error == old(error) && loading == old(loading)
    {
      password := value;
    }

    method SetConfirmPassword(value: string)
      modifies this
      ensures confirmPassword == value
      ensures mode == old(mode) && email == old(email) && password == old(password)
      ensures error == old(error) && loading == old(loading)
    {
      confirmPassword := value;
    }

    /** `handleEmailLogin` up to the service call: the login form is only shown in login mode. */
    method SubmitLogin() returns (sent: Credentials)
      requires mode == Login
      modifies this
      ensures sent == Credentials(email, password)
      ensures error.None? && loading && Valid()
      ensures mode == old(mode) && email == old(email) && password == old(password) && confirmPassword == old(confirmPassword)
    {
      error := None;
      loading := true;
      sent := Credentials(email, password);
    }

    /** The rest of `handleEmailLogin`: an error is shown in the same dialog; success closes
        the modal and resets the form. */
    method LoginSettled(result: AuthResult)
      requires Valid()
      modifies this
      ensures Valid() && !loading
      ensures result.AuthError? ==> error == Some(result.message) && mode == old(mode)
      ensures result.AuthError? ==> email == old(email) && password == old(password) && confirmPassword == old(confirmPassword)
      ensures result.AuthOk? ==> mode == Closed && FormReset()
    {
      if result.AuthError? {
        error := Some(result.message);
        loading := false;
        return;
      }
      loading := false;
      Close();
    }

    /** `handleEmailSignup` up to the service call: the pre-checks either set their message and
        stop, with no call and loading untouched, or the credentials are sent. */
    method SubmitSignup() returns (sent: Option<Credentials>)
      requires mode == Signup && Valid()
      modifies this
      ensures error == SignupPrecheck(password, confirmPassword)
      ensures sent.Some? <==> error.None?
      ensures sent.Some? ==> sent.value == Credentials(email, password) && loading
      ensures sent.None? ==> loading == old(loading)
      ensures Valid()
      ensures mode == old(mode) && email == old(email) && password == old(password) && confirmPassword == old(confirmPassword)
    {
      error := None;
      if password != confirmPassword {
        error := Some(PASSWORDS_MISMATCH);
        return None;
      }
      if |password| < MIN_PASSWORD_LENGTH {
        error := Some(PASSWORD_TOO_SHORT);
        return None;
      }
      loading := true;
      return Some(Credentials(email, password));
    }

    /** The rest of `handleEmailSignup`: an error is shown in the same dialog; success moves
        to the check-your-email dialog, leaving the fields as they were. */
    method SignupSettled(result: AuthResult)
      requires Valid()
      modifies this
      ensures Valid() && !loading
      ensures result.AuthError? ==> error == Some(result.message) && mode == old(mode)
      ensures result.AuthOk? ==> mode == CheckEmail && error == old(error)
      ensures email == old(email) && password == old(password) && confirmPassword == old(confirmPassword)
    {
      if result.AuthError? {
        error := Some(result.message);
        loading := false;
        return;
      }
      loading := false;
      mode := CheckEmail;
    }

    /** `handleGoogleSignup` up to the redirect to the provider: only the error is cleared. */
    method StartGoogleSignup()
      modifies this
      ensures error.None?
      ensures mode == old(mode) && email == old(email) && password == old(password)
      ensures confirmPassword == old(confirmPassword) && loading == old(loading)
    {
      error := None;
    }

    /** The provider redirect could not be started: its message is shown. */
    method GoogleSignupFailed(message: string)
      modifies this
      ensures error == Some(message)
      ensures mode == old(mode) && email == old(email) && password == old(password)
      ensures confirmPassword == old(confirmPassword) && loading == old(loading)
    {
      error := Some(message);
    }
  }
}
