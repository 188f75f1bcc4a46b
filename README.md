# Sign-in decision logic of a Next.js credential/two-factor login

This project models the core sign-in logic of a Next.js authentication app and
proves properties about it. The model has three parts:

- **The `login` server action** (`actions/login.ts`). A chain of gates, each of
  which either answers at once or passes the attempt on:
  1. field validation;
  2. user existence;
  3. email verification, which mails a verification token;
  4. the two-factor gate. With no code it mails a code. With a code, it checks
     that the code matches the stored one and then that it has not expired.
     On success it consumes the code and replaces the user's two-factor
     confirmation.
  5. The call of the framework's `signIn`, with its errors mapped to messages.

  The database becomes the class `LoginAction.Store`. It holds these fields:
  the user table, two-factor tokens by email, the confirmation table with its
  next free id, and an ordered log of the action's outside effects (mails
  sent, `signIn` called). `Login` is an imperative method with the source's
  early returns. For every branch, its contract states the result and the
  whole new store.
- **The credentials provider's `authorize`** (`auth.config.ts`). A pure function
  over the user table. It validates the fields, looks up the user by email,
  rejects accounts without a password hash, and returns the user only when the
  password matches.
- **The framework callbacks** (`auth.ts`):
  - `signIn` is a read-only check: the user exists and their email is verified.
  - `jwt` stamps the account's current role onto the token.
  - `session` copies `sub` and `role` into the session user.

Time is an integer `now` in milliseconds. The login schema (`valid`) and the
bcrypt comparison (`passwordsMatch`) are function parameters. The random values
that token generation would draw come in as `Minted`. How the framework's
`signIn` ends is a `SignInOutcome` parameter.

Several JavaScript truthiness tests appear in the source: `!user.email`,
`!user.password`, `if (code)`, `!token.sub`. Each is modelled by `Truthy`,
under which an absent value and the empty string are both false.

## Model

| member | source | states |
|---|---|---|
| Records.ByEmail | actions/login.ts:27 | The user found for an email carries that email and is in the table. "Not found" happens exactly when no record has that email. |
| Records.ById | auth.ts:37 | The user found for an id has that id and is in the table. "Not found" happens exactly when no record has that id. |
| Records.ByEmailFindsOwner | auth.config.ts:17 | When emails are unique, looking up a user's own email returns that user. |
| Records.ByIdFindsOwner | auth.ts:12 | When ids are unique, looking up a user's own id returns that user. |
| Confirmations.FindByUserId | actions/login.ts:72-74 | The confirmation found belongs to the user and is in the table. "None" happens exactly when the user holds no confirmation. |
| Confirmations.DeleteById | actions/login.ts:76-80 | Deleting by id keeps exactly the records with a different id. |
| Confirmations.CountAppend | actions/login.ts:83-85 | Creating a confirmation adds one to its user's count and leaves every other count as it was. |
| Confirmations.CountDeleteById | actions/login.ts:76-80 | When ids are unique, deleting a confirmation by its id takes exactly one off its user's count. |
| Confirmations.RotatedCount | actions/login.ts:71-85 | After delete-then-create, the user's count is what it was, but at least one. Other users' counts are unchanged. |
| Confirmations.RotatedLeavesOne | actions/login.ts:71-85 | If the user held at most one confirmation before, they hold exactly one afterwards. |
| Confirmations.RotatedReplaces | actions/login.ts:71-85 | If the user held at most one confirmation before, their only confirmation afterwards is the newly created record, so the old one is gone. No other user's confirmation is lost. |
| Confirmations.RotatedKeepsInvariant | actions/login.ts:71-85 | Delete-then-create keeps ids unique and below the next free id, and keeps "at most one confirmation per user". |
| LoginAction.SignInResult | actions/login.ts:96-113 | Success of `signIn` gives no result. `CredentialsSignin` maps to "Invalid credentials!" and only it does. Any other `AuthError` maps to "Something went wrong!". Any non-`AuthError` exception is rethrown unchanged. |
| LoginAction.Store.IssueVerificationToken | actions/login.ts:33-40 | Exactly one verification mail is logged for the email. The two-factor tokens, confirmations and users are unchanged. |
| LoginAction.Store.IssueTwoFactorToken | actions/login.ts:89-90 | The email's two-factor token is replaced by the issued one, and exactly one code mail is logged. Nothing else changes. |
| LoginAction.Store.Login | actions/login.ts:18-114 | Gate by gate: (1) invalid fields give "Invalid fields!" with no change; (2) no user, or a user without email or password, gives "Email does not exist!" with no change; (3) an unverified user gives "Confirmation email sent!" with one verification mail and no two-factor change; (4) two-factor off goes straight to `signIn` with no token or confirmation change; (5) two-factor on with no code issues a code and returns `twoFactor`, leaving confirmations alone; (6) no stored token or a different value gives "Invalid code!" (never "expired") with no change; (7) a matching code with `expires < now` gives "Code has expired!" and the token stays; (8) a matching code with `now <= expires` (a code stored under, and issued for, the user's email) deletes the token, rotates the confirmation and reaches `signIn`. Every stored code is filed under its own email. Users are never changed, and "at most one confirmation per user" is preserved. |
| LoginScenarios.CodeIsSingleUse | actions/login.ts:50-69 | After a code has been accepted, submitting the same code again gives "Invalid code!". |
| LoginScenarios.TwoFactorRoundTrip | actions/login.ts:46-93 | Asking for a code and then submitting the mailed code before it expires reaches `signIn`. The token is gone, the user holds exactly one confirmation, and the log holds the code mail followed by the `signIn` call. |
| AuthConfig.Authorize | auth.config.ts:12-31 | Invalid fields give `null`. A non-null result is the record the email lookup finds: it has a password hash and the password matches that hash. A valid submission whose found user has a matching hash is authorized. |
| AuthConfig.AuthorizeExactly | auth.config.ts:17-30 | When emails are unique, `u` is returned exactly when the fields are valid, `u` has the submitted email and a password hash, and the password matches. "No such user" and "wrong password" give the same `null`. |
| AuthConfig.NoPasswordNeverAuthorizes | auth.config.ts:20-22 | An account without a password hash (OAuth only) never authorizes with credentials, whatever the password. |
| Callbacks.SignInAllowed | auth.ts:11-19 | Sign-in is allowed only when a user with the id exists and has a verified email. A missing id, or an id no user has, is refused. The callback only reads the user table. |
| Callbacks.SignInAllowedExactly | auth.ts:11-19 | When ids are unique, sign-in is refused exactly when no user has the id or that user's email is unverified. |
| Callbacks.SignInIgnoresProvider | auth.ts:11-19 | The decision does not depend on the provider. It takes no two-factor confirmation into account. |
| Callbacks.Jwt | auth.ts:30-46 | Only the `role` claim can change. Without `sub`, or with no user for `sub`, the token is returned unchanged. A stamped role is the role of a user with the token's id. |
| Callbacks.JwtStampsCurrentRole | auth.ts:43-45 | When ids are unique, the token of an existing user gets that user's current role and nothing else changes. |
| Callbacks.JwtIdempotent | auth.ts:43-45 | Running `jwt` twice gives the same token as running it once. |
| Callbacks.SessionWith | auth.ts:20-29 | Without a session user the session is unchanged. Otherwise only `id` and `role` can change: `id` becomes `sub` when `sub` is present, and `role` becomes the token's role when that is present. |
| Callbacks.SessionCarriesLiveRole | auth.ts:20-45 | After `jwt` and then `session`, the session user carries the account's id and current role. |

## Left out

- The login schema (`schemas`) is not part of this model. It is the parameter `valid`, and a valid value is taken as its own parsed data.
- `bcrypt.compare` is a one-way hash comparison. It is the parameter `passwordsMatch`.
- The `data/*` lookups are not part of this model. A lookup is the first matching record of a sequence. Store failures are not modelled (these helpers may turn them into `null`), and neither are transactions or races between concurrent requests.
- `getUserByById` called with an undefined `user.id` is modelled as "no user found".
- `lib/tokens` is not part of this model. Random token values and expiry horizons come in as `Minted`.
- LoginAction.Store.IssueVerificationToken: records only the mail sent. The verification-token table itself is not modelled, because `login` never reads it. So "at most one live verification token per email" is not stated.
- LoginAction.Store.IssueTwoFactorToken: the replacement of the email's earlier code is an assumed contract for code that is not part of this model.
- Two-factor tokens are a map keyed by email. "At most one token per email" is therefore an assumption of the model, not a proved property. The token's record id is dropped: deleting by that id is deleting the email's entry.
- Confirmation record ids, which the database generates, are a counter in the store.
- `lib/mail` delivery is not modelled. A sent mail is an entry in the store's effect log, and delivery failures are not modelled.
- The framework's `signIn` internals are not modelled: running `authorize` and the callbacks, creating the session, redirecting. Its end is the `SignInOutcome` parameter. On success the framework redirects by throwing a non-`AuthError`; given as a `Foreign` outcome, that exception is rethrown as the code does.
- The asynchrony of every call is not modelled.
- The UI is not modelled: `components/auth/login-form.tsx`, `app/page.tsx` and the layouts.
- `next-auth.d.ts` holds type declarations only. Its `UserRole` is `Records.UserRole`.
- On an expired or mismatched code, `login` returns (actions/login.ts:52, :57, :63) before the delete at :67, so the token is kept.
- The `signIn` callback (auth.ts:11-19) checks neither the provider nor the two-factor confirmation, and it does not consume the confirmation.
- `jwt` (auth.ts:43-44) stamps only `role`, not `isTwoFactorEnabled`.
