/**
 * The sign-up screen's submit handler: two ordered checks on the form, then
 * `register` with the untrimmed values and citizenship "Roman". Messages are
 * the translation keys the screen looks up.
 */
module Signup {
  import opened Common
  import opened Auth

  const AllFieldsRequired: string := "auth.allFieldsRequired"
  const PasswordsMustMatch: string := "auth.passwordsMustMatch"
  const DefaultCitizenship: string := "Roman"

  datatype SignupOutcome = FieldsMissing | PasswordsDiffer | Submitted

  /**
   * The checks in order. The password is compared untrimmed, so a password
   * of spaces counts as filled in.
   */
  function CheckSignup(username: string, password: string, confirmPassword: string, name: string): (r: SignupOutcome)
    ensures r == FieldsMissing <==> IsBlank(username) || password == "" || IsBlank(name)
    ensures r == PasswordsDiffer <==>
      !IsBlank(username) && password != "" && !IsBlank(name) && password != confirmPassword
    ensures r == Submitted <==>
      !IsBlank(username) && password != "" && !IsBlank(name) && password == confirmPassword
  {
    if Trim(username) == "" || password == "" || Trim(name) == "" then FieldsMissing
    else if password != confirmPassword then PasswordsDiffer
    else Submitted
  }

  /** A password of white space passes the required-fields check. */
  lemma BlankPasswordIsAccepted(username: string, name: string)
    requires !IsBlank(username) && !IsBlank(name)
    ensures CheckSignup(username, " ", " ", name) == Submitted
  {
  }

  /** Missing fields are reported even when the passwords also differ. */
  lemma MissingFieldsTakePrecedence(password: string, confirmPassword: string, name: string)
    ensures CheckSignup("  ", password, confirmPassword, name) == FieldsMissing
  {
  }

  class SignupForm {
    var validationError: string

    constructor ()
      ensures validationError == ""
    {
      validationError := "";
    }

    method HandleSignup(auth: AuthStore, username: string, password: string, confirmPassword: string, name: string)
      returns (outcome: SignupOutcome)
      modifies this, auth
      ensures outcome == CheckSignup(username, password, confirmPassword, name)
      ensures outcome == FieldsMissing ==> validationError == AllFieldsRequired
      ensures outcome == PasswordsDiffer ==> validationError == PasswordsMustMatch
      ensures outcome != Submitted ==>
        && auth.error == None
        && auth.mockUsers == old(auth.mockUsers) && auth.user == old(auth.user)
        && auth.isAuthenticated == old(auth.isAuthenticated) && auth.isLoading == old(auth.isLoading)
      ensures outcome == Submitted ==> validationError == ""
      ensures outcome == Submitted && !UsernameTaken(old(auth.mockUsers), username) ==>
        && auth.mockUsers == old(auth.mockUsers) + [NewUser(old(auth.mockUsers), username, password, name, DefaultCitizenship)]
        && auth.user == Some(PublicProfile(NewUser(old(auth.mockUsers), username, password, name, DefaultCitizenship)))
        && auth.isAuthenticated && auth.error == None
      ensures outcome == Submitted && UsernameTaken(old(auth.mockUsers), username) ==>
        && auth.error == Some(UsernameExists)
        && auth.mockUsers == old(auth.mockUsers) && auth.user == old(auth.user)
    {
      validationError := "";
      auth.ClearError();
      if Trim(username) == "" || password == "" || Trim(name) == "" {
        validationError := AllFieldsRequired;
        return FieldsMissing;
      }
      if password != confirmPassword {
        validationError := PasswordsMustMatch;
        return PasswordsDiffer;
      }
      auth.Register(username, password, name, DefaultCitizenship);
      outcome := Submitted;
    }
  }
}
