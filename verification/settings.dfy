/** The password section of the settings page
    (`client/pages/Settings.tsx`, `handleChangePassword`). */
module SettingsPage {
  import SignupPage

  datatype PasswordFields = PasswordFields(current: string, newPassword: string, confirm: string)

  const FillAll := "Please fill in all password fields."
  const NoMatch := "New passwords do not match."
  const TooShort := "Password must be at least 6 characters long."
  const Changed := "Password changed successfully."

  const Cleared := PasswordFields("", "", "")

  /** `handleChangePassword`: the first failing check, in the order missing
      field, mismatch, short password, leaves the fields as they are; a
      request that passes them all clears the three fields. Nothing compares
      the current password with the account's, and no account changes. */
  function ChangePassword(p: PasswordFields): (r: (PasswordFields, string))
    ensures r.1 == Changed <==>
              p.current != "" && p.newPassword != "" && p.newPassword == p.confirm && |p.newPassword| >= SignupPage.MinPassword
    ensures r.1 == Changed ==> r.0 == Cleared
    ensures r.1 != Changed ==> r.0 == p
    ensures r.1 == FillAll <==> p.current == "" || p.newPassword == ""
    ensures r.1 == TooShort ==> p.newPassword == p.confirm
  {
    if p.current == "" || p.newPassword == "" then (p, FillAll)
    else if p.newPassword != p.confirm then (p, NoMatch)
    else if |p.newPassword| < SignupPage.MinPassword then (p, TooShort)
    else (Cleared, Changed)
  }

  /** The two validators run their checks in opposite orders: for a
      short password that its confirmation does not match, sign-up reports
      the length and the settings page the mismatch. Both accept the same
      passwords. */
  lemma OppositeOrders(f: SignupPage.SignupForm, acceptTerms: bool, current: string)
    requires f.email != "" && f.password != "" && f.firstName != "" && f.lastName != ""
    requires current != ""
    ensures |f.password| < SignupPage.MinPassword && f.password != f.confirmPassword ==>
              && SignupPage.Validate(f, acceptTerms) == SignupPage.Rejected(SignupPage.TooShort)
              && ChangePassword(PasswordFields(current, f.password, f.confirmPassword)).1 == NoMatch
    ensures acceptTerms ==>
              (SignupPage.Validate(f, acceptTerms) == SignupPage.Accepted
               <==> ChangePassword(PasswordFields(current, f.password, f.confirmPassword)).1 == Changed)
  {
  }

  /** A concrete pair: "abc" confirmed as "abd". */
  lemma ShortMismatchExample()
    ensures SignupPage.Validate(SignupPage.SignupForm("a@b.c", "abc", "abd", "Ann", "Lee"), true)
            == SignupPage.Rejected(SignupPage.TooShort)
    ensures ChangePassword(PasswordFields("old", "abc", "abd")).1 == NoMatch
  {
  }
}
