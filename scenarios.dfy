/** Two-step uses of the login action that follow from its contract alone. */
module LoginScenarios {
  import opened Records
  import opened Confirmations
  import opened LoginAction

  /** A two-factor code works once: after a successful check consumes it,
      submitting the same code again is rejected as invalid. */
  method CodeIsSingleUse(store: Store, values: LoginValues, valid: LoginValues -> bool, now: int,
                         minted: Minted, first: SignInOutcome, second: SignInOutcome)
    returns (r1: LoginResult, r2: LoginResult)
    requires store.Valid() && valid(values)
    requires Registered(store.Account(values.email))
    requires store.Account(values.email).value.emailVerified.Some?
    requires store.Account(values.email).value.isTwoFactorEnabled
    requires Truthy(values.code)
    requires values.email in store.twoFactorTokens
    requires store.twoFactorTokens[values.email].token == values.code.value
    requires now <= store.twoFactorTokens[values.email].expires
    modifies store
    ensures r1 == SignInResult(first)
    ensures r2 == ErrorResult(InvalidCode)
  {
    r1 := store.Login(values, valid, now, minted, first);
    r2 := store.Login(values, valid, now, minted, second);
  }

  /** A verified two-factor user first asks for a code and then, before it
      expires, submits the code that was mailed: the attempt reaches sign-in and
      the user ends up holding one confirmation. */
  method TwoFactorRoundTrip(store: Store, values: LoginValues, valid: LoginValues -> bool,
                            asked: int, answered: int, minted: Minted, outcome: SignInOutcome)
    returns (r1: LoginResult, r2: LoginResult)
    requires store.Valid() && AtMostOneEach(store.confirmations)
    requires !Truthy(values.code) && minted.twoFactorToken != ""
    requires valid(values) && valid(values.(code := Some(minted.twoFactorToken)))
    requires Registered(store.Account(values.email))
    requires store.Account(values.email).value.emailVerified.Some?
    requires store.Account(values.email).value.isTwoFactorEnabled
    requires answered <= minted.twoFactorExpires
    modifies store
    ensures r1 == TwoFactorResult
    ensures r2 == SignInResult(outcome)
    ensures values.email !in store.twoFactorTokens
    ensures Count(store.confirmations, old(store.Account(values.email)).value.id) == 1
    ensures store.effects == old(store.effects) + [
              TwoFactorEmailSent(values.email, minted.twoFactorToken),
              SignInCalled(values.email, values.password)]
  {
    ghost var userId := store.Account(values.email).value.id;
    r1 := store.Login(values, valid, asked, minted, outcome);
    ghost var before := store.confirmations;
    ghost var newId := store.nextConfirmationId;
    r2 := store.Login(values.(code := Some(minted.twoFactorToken)), valid, answered, minted, outcome);
    RotatedLeavesOne(before, userId, newId);
  }
}
