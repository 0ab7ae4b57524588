/** The sign-up page (`client/pages/Signup.tsx`): the form's validator and
    the mapping of the account service's answer to what the page shows. */
module SignupPage {
  import Auth

  datatype SignupForm = SignupForm(
    email: string,
    password: string,
    confirmPassword: string,
    firstName: string,
    lastName: string)

  const FillAll := "Please fill in all fields"
  const TooShort := "Password must be at least 6 characters long"
  const NoMatch := "Passwords do not match"
  const AcceptTerms := "Please accept the terms and conditions"
  const Taken := "An account with this email already exists"

  /** The shortest password either page accepts. */
  const MinPassword := 6

  datatype Verdict = Accepted | Rejected(message: string)

  /** `validateForm`: the first failing check, in the order missing field,
      short password, mismatch, terms not accepted. */
  function Validate(f: SignupForm, acceptTerms: bool): (r: Verdict)
    ensures r == Accepted <==>
              && f.email != "" && f.password != "" && f.firstName != "" && f.lastName != ""
              && |f.password| >= MinPassword && f.password == f.confirmPassword && acceptTerms
    ensures r == Rejected(FillAll) <==>
              f.email == "" || f.password == "" || f.firstName == "" || f.lastName == ""
    ensures r == Rejected(AcceptTerms) ==>
              |f.password| >= MinPassword && f.password == f.confirmPassword
  {
    if f.email == "" || f.password == "" || f.firstName == "" || f.lastName == "" then Rejected(FillAll)
    else if |f.password| < MinPassword then Rejected(TooShort)
    else if f.password != f.confirmPassword then Rejected(NoMatch)
    else if !acceptTerms then Rejected(AcceptTerms)
    else Accepted
  }

  /** With every field filled, a short password is reported as short
      whether or not the confirmation matches. */
  lemma ShortBeforeMismatch(f: SignupForm, acceptTerms: bool)
    requires f.email != "" && f.password != "" && f.firstName != "" && f.lastName != ""
    requires |f.password| < MinPassword
    ensures Validate(f, acceptTerms) == Rejected(TooShort)
  {
  }

  datatype Outcome = Shown(error: string) | Welcome

  /** `handleSubmit`: a rejected form shows the validator's message and
      leaves the account service alone; otherwise the service's `signup` is
      asked, and a refusal is shown as the address being taken. */
  function Submit(s: Auth.State, f: SignupForm, acceptTerms: bool, freshId: string, now: int)
    : (r: (Auth.State, Outcome))
    ensures Validate(f, acceptTerms).Rejected? ==>
              r == (s, Shown(Validate(f, acceptTerms).message))
    ensures Validate(f, acceptTerms) == Accepted ==>
              (r.1 == Welcome <==> f.email !in s.accounts)
    ensures r.1 == Shown(Taken) && Validate(f, acceptTerms) == Accepted ==> r.0 == s
    ensures r.1 == Welcome ==>
              && r.0.user.Some? && r.0.user.value.email == f.email
              && f.email in r.0.accounts && r.0.accounts[f.email].password == f.password
  {
    match Validate(f, acceptTerms)
    case Rejected(message) => (s, Shown(message))
    case Accepted =>
      var (t, ok) := Auth.Signup(s, f.email, f.password, f.firstName, f.lastName, freshId, now);
      if ok then (t, Welcome) else (t, Shown(Taken))
  }

  /** An account created here opens with the password typed twice. */
  lemma WelcomeThenLogin(s: Auth.State, f: SignupForm, acceptTerms: bool, freshId: string, now: int)
    requires Submit(s, f, acceptTerms, freshId, now).1 == Welcome
    ensures Auth.Login(Submit(s, f, acceptTerms, freshId, now).0, f.email, f.confirmPassword).1
  {
  }
}
