/** The credential login server action: a chain of gates, each of which either
    returns a result at once or lets the attempt through to the next, over a
    shared record store that some gates change. */
module LoginAction {
  import opened Records
  import opened Confirmations

  const InvalidFields := "Invalid fields!"
  const EmailDoesNotExist := "Email does not exist!"
  const ConfirmationEmailSent := "Confirmation email sent!"
  const InvalidCode := "Invalid code!"
  const CodeHasExpired := "Code has expired!"
  const InvalidCredentials := "Invalid credentials!"
  const SomethingWentWrong := "Something went wrong!"

  /** The `type` of the `AuthError` the framework raises for rejected credentials. */
  const CredentialsSignin := "CredentialsSignin"

  /** A stored two-factor code for an email, valid up to `expires` (milliseconds). */
  datatype TwoFactorToken = TwoFactorToken(email: string, token: string, expires: int)

  /** What the action does outside the token and confirmation tables, in order:
      the mails it sends with freshly issued tokens, and its call of `signIn`. */
  datatype Effect =
    | VerificationEmailSent(email: string, token: string)
    | TwoFactorEmailSent(email: string, token: string)
    | SignInCalled(email: string, password: string)

  /** The values that token generation would draw at random on this request. */
  datatype Minted = Minted(verificationToken: string, twoFactorToken: string, twoFactorExpires: int)

  /** An exception raised inside `signIn`. */
  datatype Thrown = AuthError(kind: string) | Foreign(name: string)

  /** How the framework's `signIn` ends. */
  datatype SignInOutcome = SignedIn | Threw(error: Thrown)

  /** What `login` gives back to the form: `{ error }`, `{ success }`,
      `{ twoFactor: true }`, nothing (after `signIn` returned), or an exception. */
  datatype LoginResult =
    | ErrorResult(error: string)
    | SuccessResult(success: string)
    | TwoFactorResult
    | NoResult
    | Rethrown(thrown: Thrown)

  /** The catch block around `signIn`: rejected credentials and every other
      `AuthError` become generic messages; anything else propagates unchanged. */
  function SignInResult(outcome: SignInOutcome): (r: LoginResult)
    ensures outcome.SignedIn? <==> r.NoResult?
    ensures r == ErrorResult(InvalidCredentials) <==> outcome == Threw(AuthError(CredentialsSignin))
    ensures r == ErrorResult(SomethingWentWrong) <==>
            outcome.Threw? && outcome.error.AuthError? && outcome.error.kind != CredentialsSignin
    ensures r.Rethrown? <==> outcome.Threw? && outcome.error.Foreign?
    ensures r.Rethrown? ==> r.thrown == outcome.error
  {
    match outcome
    case SignedIn => NoResult
    case Threw(AuthError(kind)) =>
      if kind == CredentialsSignin then ErrorResult(InvalidCredentials) else ErrorResult(SomethingWentWrong)
    case Threw(e) => Rethrown(e)
  }

  /** A user record that passes the existence gate: found, with an email and a password hash. */
  predicate Registered(found: Option<User>)
  {
    found.Some? && Truthy(found.value.email) && Truthy(found.value.password)
  }

  /** The record store the action reads and writes. */
  class Store {
    var users: seq<User>
    /** Two-factor codes, by email. */
    var twoFactorTokens: map<string, TwoFactorToken>
    var confirmations: seq<TwoFactorConfirmation>
    /** The id the next confirmation record receives. */
    var nextConfirmationId: nat
    var effects: seq<Effect>

    ghost predicate Valid()
      reads this
    {
      && (forall e :: e in twoFactorTokens ==> twoFactorTokens[e].email == e)
      && UniqueIds(confirmations)
      && IdsBelow(confirmations, nextConfirmationId)
    }

    constructor (users: seq<User>)
      ensures Valid()
      ensures this.users == users && twoFactorTokens == map[] && confirmations == [] && effects == []
    {
      this.users := users;
      twoFactorTokens := map[];
      confirmations := [];
      nextConfirmationId := 0;
      effects := [];
    }

    /** The user record `login` finds for `email`. */
    function Account(email: string): Option<User>
      reads this
    {
      ByEmail(users, email)
    }

    /** Issue a verification token for `email` and mail it. */
    method IssueVerificationToken(email: string, token: string)
      requires Valid()
      modifies this
      ensures Valid()
      ensures effects == old(effects) + [VerificationEmailSent(email, token)]
      ensures users == old(users) && twoFactorTokens == old(twoFactorTokens)
      ensures confirmations == old(confirmations) && nextConfirmationId == old(nextConfirmationId)
    {
      effects := effects + [VerificationEmailSent(email, token)];
    }

    /** Issue a two-factor code for `email`, replacing any code stored for it,
        and mail it. */
    method IssueTwoFactorToken(email: string, token: string, expires: int)
      requires Valid()
      modifies this
      ensures Valid()
      ensures twoFactorTokens == old(twoFactorTokens)[email := TwoFactorToken(email, token, expires)]
      ensures effects == old(effects) + [TwoFactorEmailSent(email, token)]
      ensures users == old(users)
      ensures confirmations == old(confirmations) && nextConfirmationId == old(nextConfirmationId)
    {
      twoFactorTokens := twoFactorTokens[email := TwoFactorToken(email, token, expires)];
      effects := effects + [TwoFactorEmailSent(email, token)];
    }

    /** The login action. `valid` is the login schema, `now` the clock,
        `minted` the random token values, `outcome` how `signIn` ends. */
    method Login(values: LoginValues, valid: LoginValues -> bool, now: int, minted: Minted, outcome: SignInOutcome)
      returns (r: LoginResult)
      requires Valid()
      modifies this
      ensures Valid() && users == old(users)
      // Malformed fields: rejected before the store is touched.
      ensures !valid(values) ==> r == ErrorResult(InvalidFields) && unchanged(this)
      // No usable account: one generic message, nothing changes.
      ensures valid(values) && !Registered(Account(values.email)) ==>
                r == ErrorResult(EmailDoesNotExist) && unchanged(this)
      // Unverified email: one verification mail, no two-factor state touched, no sign-in.
      ensures valid(values) && Registered(Account(values.email)) && Account(values.email).value.emailVerified.None? ==>
                && r == SuccessResult(ConfirmationEmailSent)
                && effects == old(effects) + [VerificationEmailSent(values.email, minted.verificationToken)]
                && twoFactorTokens == old(twoFactorTokens)
                && confirmations == old(confirmations) && nextConfirmationId == old(nextConfirmationId)
      // Verified, two-factor off: straight to sign-in, no token or confirmation change.
      ensures valid(values) && Registered(Account(values.email)) && Account(values.email).value.emailVerified.Some?
              && !Account(values.email).value.isTwoFactorEnabled ==>
                && r == SignInResult(outcome)
                && effects == old(effects) + [SignInCalled(values.email, values.password)]
                && twoFactorTokens == old(twoFactorTokens)
                && confirmations == old(confirmations) && nextConfirmationId == old(nextConfirmationId)
      // Two-factor on, no code: a code is issued and mailed; confirmations untouched, no sign-in.
      ensures valid(values) && Registered(Account(values.email)) && Account(values.email).value.emailVerified.Some?
              && Account(values.email).value.isTwoFactorEnabled && !Truthy(values.code) ==>
                && r == TwoFactorResult
                && twoFactorTokens == old(twoFactorTokens)[values.email :=
                     TwoFactorToken(values.email, minted.twoFactorToken, minted.twoFactorExpires)]
                && effects == old(effects) + [TwoFactorEmailSent(values.email, minted.twoFactorToken)]
                && confirmations == old(confirmations) && nextConfirmationId == old(nextConfirmationId)
      // Two-factor on, a code that is not the stored one: "Invalid code!", never "expired", nothing changes.
      ensures valid(values) && Registered(Account(values.email)) && Account(values.email).value.emailVerified.Some?
              && Account(values.email).value.isTwoFactorEnabled && Truthy(values.code)
              && (values.email !in old(twoFactorTokens) || old(twoFactorTokens)[values.email].token != values.code.value) ==>
                r == ErrorResult(InvalidCode) && unchanged(this)
      // The stored code, past its expiry: "Code has expired!", and the token stays.
      ensures valid(values) && Registered(Account(values.email)) && Account(values.email).value.emailVerified.Some?
              && Account(values.email).value.isTwoFactorEnabled && Truthy(values.code)
              && values.email in old(twoFactorTokens) && old(twoFactorTokens)[values.email].token == values.code.value
              && old(twoFactorTokens)[values.email].expires < now ==>
                r == ErrorResult(CodeHasExpired) && unchanged(this)
      // The stored code, in time: the token is consumed, the user's confirmation
      // rotated, and the attempt goes on to sign-in.
      ensures valid(values) && Registered(Account(values.email)) && Account(values.email).value.emailVerified.Some?
              && Account(values.email).value.isTwoFactorEnabled && Truthy(values.code)
              && values.email in old(twoFactorTokens) && old(twoFactorTokens)[values.email].token == values.code.value
              && now <= old(twoFactorTokens)[values.email].expires ==>
                && r == SignInResult(outcome)
                && old(twoFactorTokens)[values.email].email == Account(values.email).value.email.value
                && twoFactorTokens == old(twoFactorTokens) - {values.email}
                && confirmations == Rotated(old(confirmations), Account(values.email).value.id, old(nextConfirmationId))
                && nextConfirmationId == old(nextConfirmationId) + 1
                && effects == old(effects) + [SignInCalled(values.email, values.password)]
      // Every stored code belongs to the email it is filed under, so the code
      // checked for a user is one issued for that user's email.
      ensures forall e :: e in twoFactorTokens ==> twoFactorTokens[e].email == e
      // No path creates a second confirmation for a user.
      ensures old(AtMostOneEach(confirmations)) ==> AtMostOneEach(confirmations)
    {
      if !valid(values) {
        return ErrorResult(InvalidFields);
      }

      var existingUser := ByEmail(users, values.email);
      if existingUser.None? || !Truthy(existingUser.value.email) || !Truthy(existingUser.value.password) {
        return ErrorResult(EmailDoesNotExist);
      }
      var user := existingUser.value;

      if user.emailVerified.None? {
        IssueVerificationToken(user.email.value, minted.verificationToken);
        return SuccessResult(ConfirmationEmailSent);
      }

      if user.isTwoFactorEnabled && Truthy(user.email) {
        var email := user.email.value;
        if Truthy(values.code) {
          if email !in twoFactorTokens {
            return ErrorResult(InvalidCode);
          }
          var twoFactorToken := twoFactorTokens[email];
          if twoFactorToken.token != values.code.value {
            return ErrorResult(InvalidCode);
          }
          var hasExpired := twoFactorToken.expires < now;
          if hasExpired {
            return ErrorResult(CodeHasExpired);
          }

          twoFactorTokens := twoFactorTokens - {email};

          var existingConfirmation := FindByUserId(confirmations, user.id);
          if existingConfirmation.Some? {
            confirmations := DeleteById(confirmations, existingConfirmation.value.id);
          }
          RotatedKeepsInvariant(old(confirmations), user.id, nextConfirmationId);
          confirmations := confirmations + [TwoFactorConfirmation(nextConfirmationId, user.id)];
          nextConfirmationId := nextConfirmationId + 1;
        } else {
          IssueTwoFactorToken(email, minted.twoFactorToken, minted.twoFactorExpires);
          return TwoFactorResult;
        }
      }

      effects := effects + [SignInCalled(values.email, values.password)];
      r := SignInResult(outcome);
    }
  }
}
