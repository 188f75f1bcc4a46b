/** The credentials provider's `authorize`: decides which user, if any, a
    submitted email and password identify. The password-hash comparison is the
    parameter `passwordsMatch(password, hash)`. */
module AuthConfig {
  import opened Records

  function Authorize(users: seq<User>, credentials: LoginValues, valid: LoginValues -> bool,
                     passwordsMatch: (string, string) -> bool): (r: Option<User>)
    // Invalid fields never authorize.
    ensures !valid(credentials) ==> r.None?
    // A result is the record the email lookup finds, it has a password hash,
    // and the submitted password matches that hash.
    ensures r.Some? ==> && r == ByEmail(users, credentials.email)
                        && r.value in users && r.value.email == Some(credentials.email)
                        && Truthy(r.value.password)
                        && passwordsMatch(credentials.password, r.value.password.value)
    // Conversely, a valid submission for a found user with a matching hash authorizes.
    ensures valid(credentials) && ByEmail(users, credentials.email).Some?
            && Truthy(ByEmail(users, credentials.email).value.password)
            && passwordsMatch(credentials.password, ByEmail(users, credentials.email).value.password.value)
            ==> r.Some?
  {
    if valid(credentials) then
      var user := ByEmail(users, credentials.email);
      if user.None? || !Truthy(user.value.password) then None
      else if passwordsMatch(credentials.password, user.value.password.value) then user
      else None
    else None
  }

  /** With unique emails: `u` is authorized exactly when the fields are valid,
      `u` is the account of the submitted email, has a password hash, and the
      password matches it. */
  lemma AuthorizeExactly(users: seq<User>, credentials: LoginValues, valid: LoginValues -> bool,
                         passwordsMatch: (string, string) -> bool, u: User)
    requires UniqueEmails(users)
    ensures Authorize(users, credentials, valid, passwordsMatch) == Some(u) <==>
            && valid(credentials) && u in users && u.email == Some(credentials.email)
            && Truthy(u.password) && passwordsMatch(credentials.password, u.password.value)
  {
    if u in users && u.email == Some(credentials.email) {
      ByEmailFindsOwner(users, u);
    }
  }

  /** An OAuth-only account (no password hash) never authorizes with credentials,
      whatever the password. */
  lemma NoPasswordNeverAuthorizes(users: seq<User>, credentials: LoginValues, valid: LoginValues -> bool,
                                  passwordsMatch: (string, string) -> bool, u: User)
    requires UniqueEmails(users)
    requires u in users && u.email == Some(credentials.email) && !Truthy(u.password)
    ensures Authorize(users, credentials, valid, passwordsMatch).None?
  {
    ByEmailFindsOwner(users, u);
  }
}
