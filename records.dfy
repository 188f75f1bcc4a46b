/** The records the sign-in logic works on, and the keyed user lookups
    (`getUserByEmail`, `getUserByById`) over an in-memory user table. */
module Records {

  datatype Option<+T> = None | Some(value: T)

  /** The two roles a user account can hold. */
  datatype UserRole = ADMIN | USER

  /** A user account. Absent columns are `None`; `emailVerified` is the
      verification timestamp, in milliseconds. */
  datatype User = User(
    id: string,
    email: Option<string>,
    emailVerified: Option<int>,
    password: Option<string>,
    role: UserRole,
    isTwoFactorEnabled: bool)

  /** The fields of a login form after schema validation. */
  datatype LoginValues = LoginValues(email: string, password: string, code: Option<string>)

  /** JavaScript truthiness of an optional string: `null`, `undefined` and
      the empty string are all falsy. */
  predicate Truthy(s: Option<string>)
  {
    s.Some? && s.value != ""
  }

  /** The user whose email column equals `email`: the first such record,
      which is the only one when emails are unique. */
  function ByEmail(users: seq<User>, email: string): (r: Option<User>)
    ensures r.Some? ==> r.value in users && r.value.email == Some(email)
    ensures r.None? <==> forall u :: u in users ==> u.email != Some(email)
  {
    if users == [] then None
    else if users[0].email == Some(email) then Some(users[0])
    else ByEmail(users[1..], email)
  }

  /** The user whose id is `id`: the first such record. */
  function ById(users: seq<User>, id: string): (r: Option<User>)
    ensures r.Some? ==> r.value in users && r.value.id == id
    ensures r.None? <==> forall u :: u in users ==> u.id != id
  {
    if users == [] then None
    else if users[0].id == id then Some(users[0])
    else ById(users[1..], id)
  }

  /** The unique constraint on the email column: no two records share an email. */
  predicate UniqueEmails(users: seq<User>)
  {
    forall i, j :: 0 <= i < j < |users| && users[i].email.Some? ==> users[i].email != users[j].email
  }

  /** The primary key: no two records share an id. */
  predicate UniqueUserIds(users: seq<User>)
  {
    forall i, j :: 0 <= i < j < |users| ==> users[i].id != users[j].id
  }

  /** Under the unique constraint, looking a user up by their own email finds them. */
  lemma {:induction false} ByEmailFindsOwner(users: seq<User>, u: User)
    requires UniqueEmails(users)
    requires u in users && u.email.Some?
    ensures ByEmail(users, u.email.value) == Some(u)
  {
    if users[0] != u {
      assert u in users[1..];
      assert users[0].email != u.email;
      assert UniqueEmails(users[1..]) by {
        forall i, j | 0 <= i < j < |users[1..]| && users[1..][i].email.Some?
          ensures users[1..][i].email != users[1..][j].email
        {
          assert users[1..][i] == users[i + 1] && users[1..][j] == users[j + 1];
        }
      }
      ByEmailFindsOwner(users[1..], u);
    }
  }

  /** Under the primary key, looking a user up by their own id finds them. */
  lemma {:induction false} ByIdFindsOwner(users: seq<User>, u: User)
    requires UniqueUserIds(users)
    requires u in users
    ensures ById(users, u.id) == Some(u)
  {
    if users[0] != u {
      assert u in users[1..];
      assert users[0].id != u.id;
      assert UniqueUserIds(users[1..]) by {
        forall i, j | 0 <= i < j < |users[1..]|
          ensures users[1..][i].id != users[1..][j].id
        {
          assert users[1..][i] == users[i + 1] && users[1..][j] == users[j + 1];
        }
      }
      ByIdFindsOwner(users[1..], u);
    }
  }
}
