/** The dashboard's login state in src/App.jsx: the `isLoggedIn`, `email` and
    `emailError` state and the handlers that change them. */
module LoginForm {

  import opened EmailCheck

  const RequiredMessage: string := "Email is required"
  const InvalidMessage: string := "Please enter a valid email address"

  /** The error `handleLogin` shows for `email`, or "" when the login goes through:
      blank input is reported as missing, any other rejected input as invalid. */
  function LoginError(email: string): (message: string)
    ensures message == "" <==> ValidateEmail(email)
    ensures Trim(email) == [] ==> message == RequiredMessage
    ensures Trim(email) != [] && !ValidateEmail(email) ==> message == InvalidMessage
  {
    if Trim(email) == [] then
      BlankIsInvalid(email);
      RequiredMessage
    else if !ValidateEmail(email) then InvalidMessage
    else ""
  }

  class Form {
    var isLoggedIn: bool
    var email: string
    var emailError: string

    constructor ()
      ensures !isLoggedIn && email == "" && emailError == ""
    {
      isLoggedIn, email, emailError := false, "", "";
    }

    /** The input's `onChange`: takes the typed text and clears the error. */
    method EditEmail(text: string)
      modifies this
      ensures email == text && emailError == "" && isLoggedIn == old(isLoggedIn)
    {
      email := text;
      emailError := "";
    }

    /** `handleLogin`: shows the error `LoginError` finds and stops, or logs in
        with a valid email and clears the error. */
    method HandleLogin()
      modifies this
      ensures email == old(email)
      ensures emailError == LoginError(email)
      ensures isLoggedIn == (old(isLoggedIn) || ValidateEmail(email))
    {
      var error := LoginError(email);
      if error != "" {
        emailError := error;
        return;
      }
      isLoggedIn := true;
      emailError := "";
    }

    /** `handleLogout`: logs out and clears the email; the error text is kept. */
    method HandleLogout()
      modifies this
      ensures !isLoggedIn && email == "" && emailError == old(emailError)
    {
      isLoggedIn := false;
      email := "";
    }
  }
}
