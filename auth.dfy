/** The decision tree of the login handler (app.py, lines 170-209). The administrator
    credential is an input instead of the literals in the program; the same identity
    string serves as the administrator's login name (line 176) and as the e-mail address
    that stored accounts may not carry (line 196). Password-hash verification is the
    parameter `checkHash`, of which nothing is assumed. */
module Auth {
  import opened Wrappers

  datatype AdminCredential = AdminCredential(identity: string, secret: string)

  /** A row of the users table. */
  datatype User = User(username: string, email: string, passwordHash: string)

  /** The session identity the program stores in its cookie for the administrator. */
  const AdminDisplayName: string := "Admin"

  datatype LoginOutcome =
    | AdminSignedIn
    | WrongAdminPassword
    | CannotConnect
    | UserNotFound
    | AdminEmailRefused
    | SignedIn(username: string)
    | WrongPassword

  /** The identity placed in the session cookie, if any. */
  function Identity(r: LoginOutcome): Option<string> {
    match r
    case AdminSignedIn => Some(AdminDisplayName)
    case SignedIn(name) => Some(name)
    case _ => None
  }

  /** The row the users table returns for the submitted name (an absent name matches none). */
  function LookUp(users: map<string, User>, username: Option<string>): (row: Option<User>)
    ensures row.Some? <==> username.Some? && username.value in users
    ensures row.Some? ==> row.value == users[username.value]
  {
    if username.Some? && username.value in users then Some(users[username.value]) else None
  }

  function Login(admin: AdminCredential, users: map<string, User>, storeAvailable: bool,
                 username: Option<string>, password: Option<string>,
                 checkHash: (string, Option<string>) -> bool): (r: LoginOutcome)
    // The administrator's name is decided by the secret alone, without the store.
    ensures username == Some(admin.identity) ==>
              r == (if password == Some(admin.secret) then AdminSignedIn else WrongAdminPassword)
    ensures r == AdminSignedIn || r == WrongAdminPassword ==> username == Some(admin.identity)
    // Any other name needs the store first.
    ensures r == CannotConnect <==> username != Some(admin.identity) && !storeAvailable
    // Any other name that the users table does not hold is "not found".
    ensures r == UserNotFound <==>
              username != Some(admin.identity) && storeAvailable && LookUp(users, username).None?
    // A stored account carrying the administrator's e-mail is refused, whatever the password.
    ensures r == AdminEmailRefused <==>
              username != Some(admin.identity) && storeAvailable &&
              LookUp(users, username).Some? && LookUp(users, username).value.email == admin.identity
    // A user signs in, under the stored name, exactly when the hash check passes.
    ensures r.SignedIn? <==>
              username != Some(admin.identity) && storeAvailable &&
              var row := LookUp(users, username);
              row.Some? && row.value.email != admin.identity &&
              checkHash(row.value.passwordHash, password)
    ensures r.SignedIn? ==> r.username == LookUp(users, username).value.username
  {
    if username == Some(admin.identity) then
      if password == Some(admin.secret) then AdminSignedIn else WrongAdminPassword
    else if !storeAvailable then CannotConnect
    else
      var row := LookUp(users, username);
      if row.None? then UserNotFound
      else if row.value.email == admin.identity then AdminEmailRefused
      else if checkHash(row.value.passwordHash, password) then SignedIn(row.value.username)
      else WrongPassword
  }

  /** Only the two successful outcomes set an identity: the administrator's display name
      for the right secret, or the stored user's name for a passing hash check. */
  lemma IdentityOnlyOnSuccess(admin: AdminCredential, users: map<string, User>, storeAvailable: bool,
                              username: Option<string>, password: Option<string>,
                              checkHash: (string, Option<string>) -> bool)
    ensures var r := Login(admin, users, storeAvailable, username, password, checkHash);
            Identity(r).Some? <==>
              (username == Some(admin.identity) && password == Some(admin.secret)) ||
              (username != Some(admin.identity) && storeAvailable &&
               LookUp(users, username).Some? &&
               LookUp(users, username).value.email != admin.identity &&
               checkHash(LookUp(users, username).value.passwordHash, password))
  {
  }

  /** A stored account under the administrator's own name can never be signed into. */
  lemma AdminNameShadowsStoredUser(admin: AdminCredential, users: map<string, User>, storeAvailable: bool,
                                   password: Option<string>, checkHash: (string, Option<string>) -> bool)
    ensures !Login(admin, users, storeAvailable, Some(admin.identity), password, checkHash).SignedIn?
  {
  }
}
