/** The three callbacks the authentication framework runs around every sign-in:
    `signIn` decides whether the sign-in may go on, `jwt` stamps the account's
    current role onto the token, `session` copies the token's claims into the
    session the client sees. */
module Callbacks {
  import opened Records

  /** What `signIn` is handed: the signed-in user's id (absent when the
      provider reports none) and the provider that authenticated them. */
  datatype SignInRequest = SignInRequest(userId: Option<string>, provider: string)

  /** The JSON web token; `sub` holds the user id. */
  datatype Token = Token(
    sub: Option<string>,
    role: Option<UserRole>,
    name: Option<string>,
    email: Option<string>,
    picture: Option<string>)

  datatype SessionUser = SessionUser(
    id: Option<string>,
    role: Option<UserRole>,
    name: Option<string>,
    email: Option<string>,
    image: Option<string>)

  datatype Session = Session(user: Option<SessionUser>, expires: string)

  /** The `signIn` callback: only reads the user table. */
  function SignInAllowed(users: seq<User>, request: SignInRequest): (ok: bool)
    // Allowed only for an existing user whose email is verified.
    ensures ok ==> request.userId.Some? &&
                   exists u :: u in users && u.id == request.userId.value && u.emailVerified.Some?
    // No id, or no user with that id: refused.
    ensures request.userId.None? || (forall u :: u in users ==> u.id != request.userId.value) ==> !ok
  {
    if request.userId.None? then false
    else
      var existingUser := ById(users, request.userId.value);
      !(existingUser.None? || existingUser.value.emailVerified.None?)
  }

  /** With unique ids, `signIn` refuses exactly when no user has the id or the
      user's email is unverified. */
  lemma SignInAllowedExactly(users: seq<User>, request: SignInRequest)
    requires UniqueUserIds(users)
    ensures SignInAllowed(users, request) <==>
            exists u :: u in users && Some(u.id) == request.userId && u.emailVerified.Some?
  {
    if exists u :: u in users && Some(u.id) == request.userId && u.emailVerified.Some? {
      var u :| u in users && Some(u.id) == request.userId && u.emailVerified.Some?;
      ByIdFindsOwner(users, u);
    }
  }

  /** The decision depends on the user alone: the provider plays no part, and
      neither do two-factor confirmations, which the callback never reads. */
  lemma SignInIgnoresProvider(users: seq<User>, a: SignInRequest, b: SignInRequest)
    requires a.userId == b.userId
    ensures SignInAllowed(users, a) == SignInAllowed(users, b)
  {
  }

  /** The `jwt` callback. */
  function Jwt(users: seq<User>, token: Token): (t: Token)
    // Only the role claim can change.
    ensures t == token.(role := t.role)
    // Logged out (no `sub`): unchanged.
    ensures !Truthy(token.sub) ==> t == token
    // No user with that id: unchanged.
    ensures Truthy(token.sub) && (forall u :: u in users ==> u.id != token.sub.value) ==> t == token
    // A stamped role is the role of a user with the token's id.
    ensures t.role != token.role ==>
              exists u :: u in users && Some(u.id) == token.sub && t.role == Some(u.role)
  {
    if !Truthy(token.sub) then token
    else
      var existingUser := ById(users, token.sub.value);
      if existingUser.None? then token
      else token.(role := Some(existingUser.value.role))
  }

  /** With unique ids, the token of an existing user carries that user's
      current role, whatever role it carried before. */
  lemma JwtStampsCurrentRole(users: seq<User>, token: Token, u: User)
    requires UniqueUserIds(users)
    requires u in users && token.sub == Some(u.id) && u.id != ""
    ensures Jwt(users, token) == token.(role := Some(u.role))
  {
    ByIdFindsOwner(users, u);
  }

  /** Refreshing a token twice gives the same token as refreshing it once. */
  lemma JwtIdempotent(users: seq<User>, token: Token)
    ensures Jwt(users, Jwt(users, token)) == Jwt(users, token)
  {
  }

  /** The `session` callback. */
  function SessionWith(session: Session, token: Token): (s: Session)
    ensures s.expires == session.expires
    // No session user: nothing to copy into.
    ensures session.user.None? ==> s == session
    ensures s.user.Some? <==> session.user.Some?
    // Only `id` and `role` of the session user can change ...
    ensures s.user.Some? ==> s.user.value == session.user.value.(id := s.user.value.id, role := s.user.value.role)
    // ... `id` to the token's `sub` when that is present,
    ensures s.user.Some? ==> s.user.value.id == if Truthy(token.sub) then token.sub else session.user.value.id
    // ... `role` to the token's role when that is present.
    ensures s.user.Some? ==> s.user.value.role == if token.role.Some? then token.role else session.user.value.role
  {
    var withId :=
      if Truthy(token.sub) && session.user.Some? then session.(user := Some(session.user.value.(id := token.sub)))
      else session;
    if token.role.Some? && withId.user.Some? then withId.(user := Some(withId.user.value.(role := token.role)))
    else withId
  }

  /** Claims follow the live account: after `jwt` then `session`, the session
      user has the account's id and its current role. */
  lemma SessionCarriesLiveRole(users: seq<User>, token: Token, session: Session, u: User)
    requires UniqueUserIds(users)
    requires u in users && token.sub == Some(u.id) && u.id != ""
    requires session.user.Some?
    ensures SessionWith(session, Jwt(users, token)).user ==
            Some(session.user.value.(id := Some(u.id), role := Some(u.role)))
  {
    JwtStampsCurrentRole(users, token, u);
  }
}
