/** The submit handlers of the Login and Signup forms: each either returns early
    or calls the auth context once with the form's values. */
module AuthForms {

  /** The call a form submission makes, if any. */
  datatype LoginCall = NoLogin | CallLogin(email: string, password: string)

  datatype SignupCall = NoSignup | CallSignup(name: string, email: string, password: string)

  /** `handleLogin`; "remember me" is part of the form but plays no part in the call. */
  function HandleLogin(email: string, password: string, rememberMe: bool): (r: LoginCall)
    ensures r.NoLogin? <==> email == "" || password == ""
    ensures r.CallLogin? ==> r == CallLogin(email, password)
  {
    if email == "" || password == "" then NoLogin else CallLogin(email, password)
  }

  lemma RememberMeIgnored(email: string, password: string)
    ensures HandleLogin(email, password, true) == HandleLogin(email, password, false)
  {
  }

  /** `handleSignup`: the three fields must be filled and the terms accepted. The
      "at least 8 characters" hint under the password field is not checked. */
  function HandleSignup(name: string, email: string, password: string, agreeTerms: bool): (r: SignupCall)
    ensures r.NoSignup? <==> name == "" || email == "" || password == "" || !agreeTerms
    ensures r.CallSignup? ==> r == CallSignup(name, email, password)
  {
    if name == "" || email == "" || password == "" then NoSignup
    else if !agreeTerms then NoSignup
    else CallSignup(name, email, password)
  }

  /** A one-character password goes through to `signup`. */
  lemma ShortPasswordAccepted(name: string, email: string, c: char)
    requires name != "" && email != ""
    ensures HandleSignup(name, email, [c], true) == CallSignup(name, email, [c])
  {
  }
}
