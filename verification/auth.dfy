/** The mock account service (`client/lib/auth-context.tsx`): an in-memory
    table from e-mail address to account, the signed-in user, and the
    browser storage keys it writes. */
module Auth {
  import opened Types

  datatype Theme = Light | Dark | System

  datatype Notifications = Notifications(email: bool, push: bool, budgetAlerts: bool, weeklyReports: bool)

  datatype Preferences = Preferences(
    theme: Theme,
    currency: string,
    language: string,
    notifications: Notifications)

  /** The preferences every new account starts with. */
  const DefaultPreferences := Preferences(System, "USD", "en", Notifications(true, true, true, true))

  /** A user as the application sees it: no password. `createdAt` is an instant. */
  datatype User = User(
    id: string,
    email: string,
    firstName: string,
    lastName: string,
    avatar: Option<string>,
    createdAt: int,
    preferences: Preferences)

  /** A table entry: the user together with the password. */
  datatype Account = Account(user: User, password: string)

  const DemoEmail := "demo@expensetracker.com"
  const DemoPassword := "demo123"

  /** The seeded demo account; `createdAt` is the instant the module loaded. */
  function DemoAccount(loadedAt: int): Account
  {
    Account(
      User("1", DemoEmail, "Demo", "User",
           Some("https://images.unsplash.com/photo-1472099645785-5658abf4ff4e?w=100&h=100&fit=crop&crop=face"),
           loadedAt, DefaultPreferences),
      DemoPassword)
  }

  /** The service state. Of the two browser storage keys, the model tracks
      the effects this service has on them: `session` is the user written
      under the session key at sign-in, and `transactionsSaved` is `false`
      once logout has removed the transaction key. The writes to the
      transaction key made by the store and by sample seeding are not
      tracked, so nothing here sets it to `true`. */
  datatype State = State(
    accounts: map<string, Account>,
    user: Option<User>,
    session: Option<User>,
    transactionsSaved: bool)

  /** The state when the application loads with empty storage. */
  function Start(loadedAt: int): (s: State)
    ensures s.accounts.Keys == {DemoEmail} && s.user == None
  {
    State(map[DemoEmail := DemoAccount(loadedAt)], None, None, false)
  }

  // ---------------------------------------------------------------------
  // login, signup, logout

  /** `login`: succeeds when the address has an account with that exact
      password. The flag `seedsSample` says whether the sample records are
      generated, which happens for the demo address only. */
  function Login(s: State, email: string, password: string): (r: (State, bool, bool))
    ensures r.1 <==> email in s.accounts && s.accounts[email].password == password
    ensures r.1 ==> r.0 == s.(user := Some(s.accounts[email].user), session := Some(s.accounts[email].user))
    ensures !r.1 ==> r.0 == s
    ensures r.2 <==> r.1 && email == DemoEmail
  {
    if email in s.accounts && s.accounts[email].password == password then
      var u := s.accounts[email].user;
      (s.(user := Some(u), session := Some(u)), true, email == DemoEmail)
    else (s, false, false)
  }

  /** `signup`: fails, changing nothing, when the address is taken;
      otherwise adds the account with default preferences and signs the new
      user in. `freshId` and `now` stand for the clock. */
  function Signup(s: State, email: string, password: string, firstName: string, lastName: string,
                  freshId: string, now: int): (r: (State, bool))
    ensures r.1 <==> email !in s.accounts
    ensures !r.1 ==> r.0 == s
    ensures r.1 ==>
              var u := User(freshId, email, firstName, lastName, None, now, DefaultPreferences);
              && r.0.accounts == s.accounts[email := Account(u, password)]
              && r.0.user == Some(u) && r.0.session == Some(u)
              && r.0.transactionsSaved == s.transactionsSaved
  {
    if email in s.accounts then (s, false)
    else
      var u := User(freshId, email, firstName, lastName, None, now, DefaultPreferences);
      (s.(accounts := s.accounts[email := Account(u, password)], user := Some(u), session := Some(u)), true)
  }

  /** `logout`: nobody is signed in and both storage keys are cleared; the
      table keeps every account. */
  function Logout(s: State): (r: State)
    ensures r.user == None && r.session == None && !r.transactionsSaved
    ensures r.accounts == s.accounts
  {
    State(s.accounts, None, None, false)
  }

  /** A new account can sign in straight away with the same password,
      and the address cannot be registered a second time. */
  lemma SignupThenLogin(s: State, email: string, password: string, first: string, last: string,
                        freshId: string, now: int, password2: string)
    requires email !in s.accounts
    ensures var t := Signup(s, email, password, first, last, freshId, now).0;
      && Login(t, email, password).1
      && Login(t, email, password).0.user == t.user
      && !Signup(t, email, password2, first, last, freshId, now).1
  {
  }

  /** Signing out and back in restores the same user. */
  lemma LogoutLogin(s: State, email: string, password: string)
    requires Login(s, email, password).1
    ensures var t := Login(s, email, password).0;
      Login(Logout(t), email, password).0.user == t.user
  {
  }

  /** Only the password on record opens an account. */
  lemma WrongPasswordFails(s: State, email: string, password: string)
    requires email in s.accounts && s.accounts[email].password != password
    ensures !Login(s, email, password).1 && Login(s, email, password).0 == s
  {
  }

  // ---------------------------------------------------------------------
  // Profile updates

  /** A `Partial<User>`: `None` leaves a field alone; for the optional
      avatar `Some(None)` sets it to undefined. */
  datatype UserPatch = UserPatch(
    id: Option<string>,
    email: Option<string>,
    firstName: Option<string>,
    lastName: Option<string>,
    avatar: Option<Option<string>>,
    createdAt: Option<int>,
    preferences: Option<Preferences>)

  const NoChange := UserPatch(None, None, None, None, None, None, None)

  /** `{ ...u, ...p }`: each field the patch carries takes the patch's
      value, every other field keeps the user's. */
  function MergeUser(u: User, p: UserPatch): (r: User)
    ensures p.id.Some? ==> r.id == p.id.value
    ensures p.id.None? ==> r.id == u.id
    ensures p.email.Some? ==> r.email == p.email.value
    ensures p.email.None? ==> r.email == u.email
    ensures p.firstName.Some? ==> r.firstName == p.firstName.value
    ensures p.firstName.None? ==> r.firstName == u.firstName
    ensures p.lastName.Some? ==> r.lastName == p.lastName.value
    ensures p.lastName.None? ==> r.lastName == u.lastName
    ensures p.avatar.Some? ==> r.avatar == p.avatar.value
    ensures p.avatar.None? ==> r.avatar == u.avatar
    ensures p.createdAt.Some? ==> r.createdAt == p.createdAt.value
    ensures p.createdAt.None? ==> r.createdAt == u.createdAt
    ensures p.preferences.Some? ==> r.preferences == p.preferences.value
    ensures p.preferences.None? ==> r.preferences == u.preferences
  {
    User(Pick(p.id, u.id), Pick(p.email, u.email), Pick(p.firstName, u.firstName),
         Pick(p.lastName, u.lastName), Pick(p.avatar, u.avatar), Pick(p.createdAt, u.createdAt),
         Pick(p.preferences, u.preferences))
  }

  /** Merging is idempotent, and merging nothing changes nothing. */
  lemma MergeUserLaws(u: User, p: UserPatch)
    ensures MergeUser(MergeUser(u, p), p) == MergeUser(u, p)
    ensures MergeUser(u, NoChange) == u
  {
  }

  /** `updateProfile`: fails with nobody signed in; otherwise the user is
      merged with the patch and saved, and the table entry under the user's
      current address, if there is one, is merged the same way. */
  function UpdateProfile(s: State, p: UserPatch): (r: (State, bool))
    ensures r.1 <==> s.user.Some?
    ensures !r.1 ==> r.0 == s
    ensures r.1 ==>
              var u := s.user.value;
              && r.0.user == Some(MergeUser(u, p)) && r.0.session == r.0.user
              && r.0.accounts.Keys == s.accounts.Keys
              && (forall k :: k in s.accounts && k != u.email ==> r.0.accounts[k] == s.accounts[k])
              && (u.email in s.accounts ==>
                    r.0.accounts[u.email]
                    == Account(MergeUser(s.accounts[u.email].user, p), s.accounts[u.email].password))
              && r.0.transactionsSaved == s.transactionsSaved
  {
    if s.user.None? then (s, false)
    else
      var u := s.user.value;
      var merged := MergeUser(u, p);
      var accounts :=
        if u.email in s.accounts then
          var a := s.accounts[u.email];
          s.accounts[u.email := Account(MergeUser(a.user, p), a.password)]
        else s.accounts;
      (s.(accounts := accounts, user := Some(merged), session := Some(merged)), true)
  }

  /** Changing the address does not move the account: it stays filed
      under the old address, which still signs in with the old password and
      now yields the user with the new address, while the new address has
      no account. */
  lemma EmailChangeKeepsOldKey(s: State, newEmail: string)
    requires s.user.Some? && s.user.value.email in s.accounts
    requires newEmail !in s.accounts
    ensures var was := s.user.value.email;
      var t := UpdateProfile(s, NoChange.(email := Some(newEmail))).0;
      && newEmail !in t.accounts
      && Login(t, was, s.accounts[was].password).1
      && Login(t, was, s.accounts[was].password).0.user.value.email == newEmail
  {
  }

  /** A `Partial<User['preferences']>`. */
  datatype PreferencesPatch = PreferencesPatch(
    theme: Option<Theme>,
    currency: Option<string>,
    language: Option<string>,
    notifications: Option<Notifications>)

  /** `{ ...q, ...p }` over preferences: a given preference takes effect,
      an absent one is kept. */
  function MergePreferences(q: Preferences, p: PreferencesPatch): (r: Preferences)
    ensures p.theme.Some? ==> r.theme == p.theme.value
    ensures p.theme.None? ==> r.theme == q.theme
    ensures p.currency.Some? ==> r.currency == p.currency.value
    ensures p.currency.None? ==> r.currency == q.currency
    ensures p.language.Some? ==> r.language == p.language.value
    ensures p.language.None? ==> r.language == q.language
    ensures p.notifications.Some? ==> r.notifications == p.notifications.value
    ensures p.notifications.None? ==> r.notifications == q.notifications
  {
    Preferences(Pick(p.theme, q.theme), Pick(p.currency, q.currency),
                Pick(p.language, q.language), Pick(p.notifications, q.notifications))
  }

  /** Every field of a user, as the patch that `updatePreferences` passes
      on. A missing avatar is a missing key, so it leaves the target's alone. */
  function WholeUser(u: User): (p: UserPatch)
    ensures forall v: User :: MergeUser(v, p) == u.(avatar := if u.avatar.Some? then u.avatar else v.avatar)
  {
    UserPatch(Some(u.id), Some(u.email), Some(u.firstName), Some(u.lastName),
              if u.avatar.Some? then Some(u.avatar) else None,
              Some(u.createdAt), Some(u.preferences))
  }

  /** `updatePreferences`: merges the patch into the signed-in user's
      preferences and passes the whole user on to `updateProfile`. */
  function UpdatePreferences(s: State, p: PreferencesPatch): (r: (State, bool))
    ensures r.1 <==> s.user.Some?
    ensures !r.1 ==> r.0 == s
    ensures r.1 ==>
              r.0.user == Some(s.user.value.(preferences := MergePreferences(s.user.value.preferences, p)))
  {
    if s.user.None? then (s, false)
    else
      var u := s.user.value;
      UpdateProfile(s, WholeUser(u.(preferences := MergePreferences(u.preferences, p))))
  }

  /** After a preferences update the table entry of the signed-in user
      carries the same preferences as the user, and its password is kept. */
  lemma PreferencesReachTable(s: State, p: PreferencesPatch)
    requires s.user.Some? && s.user.value.email in s.accounts
    ensures var t := UpdatePreferences(s, p).0;
      var e := s.user.value.email;
      && e in t.accounts
      && t.accounts[e].user.preferences == t.user.value.preferences
      && t.accounts[e].password == s.accounts[e].password
  {
  }
}
