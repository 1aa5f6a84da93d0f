/**
 * packages/client/src/pages/login/index.tsx: the login form's validators, the
 * order in which `loginSubmit` checks them, and the error handling around the
 * login request. The e-mail regular expression is a parameter.
 */
module Login {
  import opened Wrappers

  const MinEmailLength := 6
  const MinPasswordLength := 8

  /** `validateEmail`: too short is invalid; otherwise the regular expression decides. */
  function ValidateEmail(matchesRegex: string -> bool, email: string): (r: bool)
    ensures |email| < MinEmailLength ==> !r
    ensures r ==> matchesRegex(email)
    ensures |email| >= MinEmailLength && matchesRegex(email) ==> r
  {
    if email == "" || |email| < MinEmailLength then false else matchesRegex(email)
  }

  /** `validatePassword`: valid exactly when at least eight characters long. */
  function ValidatePassword(password: string): (r: bool)
    ensures r <==> |password| >= MinPasswordLength
  {
    if password == "" || |password| < MinPasswordLength then false else true
  }

  /** The message `loginSubmit` stops with, or none when the request goes out. */
  function SubmitCheck(matchesRegex: string -> bool, email: string, password: string): (r: Option<string>)
    ensures r.None? <==> ValidateEmail(matchesRegex, email) && ValidatePassword(password)
    ensures !ValidateEmail(matchesRegex, email) ==> r == Some("Invalid email")
    ensures ValidateEmail(matchesRegex, email) && !ValidatePassword(password) ==> r == Some("Invalid password")
  {
    if !ValidateEmail(matchesRegex, email) then Some("Invalid email")
    else if !ValidatePassword(password) then Some("Invalid password")
    else None
  }

  /** The e-mail is checked first: whatever the password, a bad e-mail gives its own message. */
  lemma EmailCheckedFirst(matchesRegex: string -> bool, email: string, password: string, other: string)
    requires !ValidateEmail(matchesRegex, email)
    ensures SubmitCheck(matchesRegex, email, password) == SubmitCheck(matchesRegex, email, other)
  {
  }

  /** What the `login` hook's promise resolves to. */
  datatype LoginResult = LoginResult(success: bool, loading: bool, error: Option<string>)

  /** `error || 'Invalid credentials'`: an absent or empty message falls back to the generic one. */
  function FailureMessage(error: Option<string>): (r: string)
    ensures r != ""
    ensures error.Some? && error.value != "" ==> r == error.value
    ensures !(error.Some? && error.value != "") ==> r == "Invalid credentials"
  {
    if error.Some? && error.value != "" then error.value else "Invalid credentials"
  }

  class LoginPage {
    var error: string
    var inputEmail: string
    var inputPassword: string
    var loginLoading: bool
    /** Every (email, password) pair handed to the `login` hook, in order. */
    var requests: seq<(string, string)>

    constructor ()
      ensures error == "" && inputEmail == "" && inputPassword == "" && !loginLoading && requests == []
    {
      error, inputEmail, inputPassword, loginLoading, requests := "", "", "", false, [];
    }

    /** `setErrClrPasswd`: show the error and clear the password field. */
    method SetErrClrPasswd(message: string)
      modifies this`error, this`inputPassword
      ensures error == message && inputPassword == ""
    {
      inputPassword := "";
      error := message;
    }

    /** `loginSubmit`: check e-mail, then password; only a form that passes both is sent. */
    method LoginSubmit(matchesRegex: string -> bool)
      modifies this`error, this`inputPassword, this`loginLoading, this`requests
      ensures var check := SubmitCheck(matchesRegex, old(inputEmail), old(inputPassword));
        && (check.Some? ==> error == check.value && inputPassword == "" &&
                            loginLoading == old(loginLoading) && requests == old(requests))
        && (check.None? ==> error == old(error) && inputPassword == old(inputPassword) &&
                            loginLoading && requests == old(requests) + [(old(inputEmail), old(inputPassword))])
    {
      if !ValidateEmail(matchesRegex, inputEmail) {
        SetErrClrPasswd("Invalid email");
        return;
      } else if !ValidatePassword(inputPassword) {
        SetErrClrPasswd("Invalid password");
        return;
      }
      requests := requests + [(inputEmail, inputPassword)];
      loginLoading := true;
    }

    /** The `then` handler of the login request: a settled failure shows a message and stops loading. */
    method LoginSettled(result: LoginResult)
      modifies this`error, this`inputPassword, this`loginLoading
      ensures !result.loading && !result.success ==>
        error == FailureMessage(result.error) && inputPassword == "" && !loginLoading
      ensures !(!result.loading && !result.success) ==>
        error == old(error) && inputPassword == old(inputPassword) && loginLoading == old(loginLoading)
    {
      if !result.loading && !result.success {
        SetErrClrPasswd(FailureMessage(result.error));
        loginLoading := false;
      }
    }
  }
}
