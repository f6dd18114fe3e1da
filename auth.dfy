/** The credentials sign-in of auth.ts: `getUser`, which looks a user up by
    email, and the provider's `authorize`, which checks the shape of the
    submitted credentials, looks the user up and compares the password with the
    stored hash.

    The zod email check and `bcrypt.compare` are parameters (`isEmail`,
    `passwordsMatch`); the users table is a sequence of rows, or a store that
    cannot be reached, in which case the query throws. */
module Auth {
  import opened Wrappers

  /** A row of `users`; `password` holds the stored hash. */
  datatype User = User(id: string, name: string, email: string, password: string)

  /** The users table as the query sees it, or a store that cannot be reached. */
  datatype UserStore = Unreachable | Reachable(users: seq<User>)

  /** The submitted credentials; a field that is missing or not text is None. */
  datatype Credentials = Credentials(email: Option<string>, password: Option<string>)

  /** The error `getUser` throws when the query fails. */
  const FetchFailedMessage := "Failed to fetch user."

  /** The rows of `SELECT * FROM users WHERE email=${email}`, in table order:
      exactly the users with that email. */
  function SelectByEmail(users: seq<User>, email: string): (rows: seq<User>)
    ensures |rows| <= |users|
    ensures forall u :: u in rows ==> u in users && u.email == email
    ensures forall u :: u in users && u.email == email ==> u in rows
  {
    if users == [] then []
    else
      var rest := SelectByEmail(users[1..], email);
      assert forall u :: u in users ==> u == users[0] || u in users[1..];
      if users[0].email == email then [users[0]] + rest else rest
  }

  /** The position of the first user with that email, or `|users|`. */
  function FirstMatch(users: seq<User>, email: string): (k: nat)
    ensures k <= |users|
    ensures forall j :: 0 <= j < k ==> users[j].email != email
    ensures k < |users| ==> users[k].email == email
  {
    if users == [] || users[0].email == email then 0
    else 1 + FirstMatch(users[1..], email)
  }

  /** The first returned row is the first user in table order with that email,
      and there is one exactly when the query returns rows. */
  lemma {:induction false} FirstRowIsFirstMatch(users: seq<User>, email: string)
    ensures SelectByEmail(users, email) != [] <==> FirstMatch(users, email) < |users|
    ensures SelectByEmail(users, email) != [] ==>
              SelectByEmail(users, email)[0] == users[FirstMatch(users, email)]
  {
    if users != [] && users[0].email != email {
      FirstRowIsFirstMatch(users[1..], email);
    }
  }

  /** `getUser(email)`: the first matching row or nothing; a failing query is
      rethrown as "Failed to fetch user.". */
  function GetUser(store: UserStore, email: string): (r: Result<Option<User>, string>)
    ensures r.Failure? <==> store.Unreachable?
    ensures r.Failure? ==> r.error == FetchFailedMessage
    ensures r.Success? && r.value.Some? ==> r.value.value in store.users && r.value.value.email == email
    ensures r.Success? ==> (r.value.None? <==> forall u :: u in store.users ==> u.email != email)
  {
    match store
    case Unreachable => Failure(FetchFailedMessage)
    case Reachable(users) =>
      var rows := SelectByEmail(users, email);
      Success(if |rows| > 0 then Some(rows[0]) else None)
  }

  /** The zod shape check: an email the email format accepts and a password of
      at least six characters. */
  predicate WellFormed(c: Credentials, isEmail: string -> bool) {
    c.email.Some? && isEmail(c.email.value) && c.password.Some? && |c.password.value| >= 6
  }

  /** How `authorize` ends: it throws, or returns a user or null. */
  datatype AuthResult = Threw(message: string) | Returned(user: Option<User>)

  /** The provider's `authorize(credentials)`. */
  function Authorize(credentials: Credentials, store: UserStore, isEmail: string -> bool,
                     passwordsMatch: (string, string) -> bool): (r: AuthResult)
    ensures !WellFormed(credentials, isEmail) ==> r == Returned(None)
    ensures r.Threw? <==> WellFormed(credentials, isEmail) && store.Unreachable?
    ensures r.Threw? ==> r.message == FetchFailedMessage
    ensures WellFormed(credentials, isEmail) && store.Reachable?
            && (forall u :: u in store.users ==> u.email != credentials.email.value)
            ==> r == Returned(None)
    ensures r.Returned? && r.user.Some? ==>
      && WellFormed(credentials, isEmail)
      && r.user.value in store.users
      && r.user.value.email == credentials.email.value
      && passwordsMatch(credentials.password.value, r.user.value.password)
  {
    if WellFormed(credentials, isEmail) then
      var email, password := credentials.email.value, credentials.password.value;
      match GetUser(store, email)
      case Failure(e) => Threw(e)
      case Success(None) => Returned(None)
      case Success(Some(user)) =>
        if passwordsMatch(password, user.password) then Returned(Some(user)) else Returned(None)
    else Returned(None)
  }

  /** Malformed credentials are refused before any lookup: the answer is null
      whatever the store holds, even when it cannot be reached. */
  lemma MalformedNeedsNoStore(credentials: Credentials, store: UserStore, isEmail: string -> bool,
                              passwordsMatch: (string, string) -> bool)
    requires !WellFormed(credentials, isEmail)
    ensures Authorize(credentials, store, isEmail, passwordsMatch) == Returned(None)
    ensures Authorize(credentials, store, isEmail, passwordsMatch)
         == Authorize(credentials, Unreachable, isEmail, passwordsMatch)
  {
  }

  /** For a found user the password comparison alone decides: the user on a
      match, null otherwise. */
  lemma FoundUserDecidedByPassword(credentials: Credentials, users: seq<User>, isEmail: string -> bool,
                                   passwordsMatch: (string, string) -> bool)
    requires WellFormed(credentials, isEmail)
    requires SelectByEmail(users, credentials.email.value) != []
    ensures var user := SelectByEmail(users, credentials.email.value)[0];
            Authorize(credentials, Reachable(users), isEmail, passwordsMatch)
            == if passwordsMatch(credentials.password.value, user.password)
               then Returned(Some(user)) else Returned(None)
  {
  }
}
