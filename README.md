# Letterer Users: account-state logic in Dafny

This project models the core of the Letterer users microservice:

- **The users controller.** It covers registration, sign-in, email confirmation, the profile view and the bearer-token check.
- **The emails service.** It covers the checks made before a forgot-password or confirm-account email is posted, and the message it posts.
- **The `EntityNotFoundError` mapping.** It covers the status, reason, identifier and code of each case.

The users table is a `map` from user id to `User` record. It lives in the class `UsersController.UserStore`, whose `Register` and `Confirm` methods update it in place. Each of these methods is specified by a pure transition function on the table (`RegisterOutcome`, `ConfirmOutcome`), and the lemmas are stated over those functions. Sign-in only reads the table, so it is the function `Login`. The email service's methods are pure functions that return either the error they throw or the post they would send.

Collaborators enter as parameters:

- `Password.hash(password, withSalt:)` is the parameter `hash: (string, string) -> string`, an arbitrary deterministic function.
- The salt, the new user's UUID and the confirmation GUID are supplied by the caller. `Register` requires the id to be fresh.
- The captcha verdict is a boolean.
- `Date()` is an integer `now`, in seconds. The 3600.0-second token lifetime is the integer 3600.
- RS512 JWT signing is an opaque wrap: `Sign(p)` is the token `Signed(p)`. Any other bearer string is `Unverifiable` and fails verification.
- `user.getUserName()` is a string parameter `userName`.
- The email service address setting is an `Option<string>`.

`User.query(...).filter(\.email == e).first()` returns some matching row. It is modelled by `FindByEmail`, a ghost function that picks one matching row arbitrarily. The store's invariant (`TableInvariant`) keeps emails unique, and `Register` preserves it. Under that invariant, the lemmas show that the matching row is the only one.

The user record has a `forgotPasswordGuid` field because the forgot-password email reads it. The model does not include the `User` initialiser. `register` is taken to create the record unconfirmed, not blocked and with no forgot-password GUID.

Where the code departs from its evident intent, the model follows the code:

- `confirm` does not clear the confirmation GUID, so a confirmation can be repeated (`ConfirmRepeatable`).
- The bearer-token expiry comparison is inverted, and `UserStore.Profile` uses it as written (see Findings).

## Model

| member | source | states |
|---|---|---|
| `EntityNotFound.ExactlyThreeCases` | Sources/App/Errors/EntityNotFoundError.swift:4-8 | every error is one of `userNotFound`, `refreshTokenNotFound`, `roleNotFound` |
| `EntityNotFound.Status` | Sources/App/Errors/EntityNotFoundError.swift:11-13 | every case reports status code 404 |
| `EntityNotFound.StatusAndIdentifierAreUniform` | Sources/App/Errors/EntityNotFoundError.swift:11-25 | status is `.notFound` and identifier is `"entity-not-found"`, the same for every pair of cases |
| `EntityNotFound.ReasonLiterals` | Sources/App/Errors/EntityNotFoundError.swift:15-21 | the exact reason per case, including `"Rolenot exists."` |
| `EntityNotFound.ReasonInjective` | Sources/App/Errors/EntityNotFoundError.swift:15-21 | distinct cases have distinct reasons |
| `EntityNotFound.FromRawValue` | Sources/App/Errors/EntityNotFoundError.swift:4-8 | the raw-value initialiser finds a case exactly when its code equals the string |
| `EntityNotFound.RawValueRoundTrip` | Sources/App/Errors/EntityNotFoundError.swift:27-29 | `code` is the case's raw value: reading it back with the raw-value initialiser gives the same case |
| `UsersController.FindByEmail` | Sources/App/Controllers/UsersController.swift:92-96 | returns a row with the requested email, and returns one exactly when such a row exists |
| `UsersController.FindByEmailUnique` | Sources/App/Controllers/UsersController.swift:92-96 | with unique emails, the lookup returns the one row that has that email |
| `UsersController.Verify` | Sources/App/Controllers/UsersController.swift:140 | only a token produced by `Sign` verifies, and it verifies to its payload; any other token fails with a JWT error |
| `UsersController.SignVerifyRoundTrip` | Sources/App/Controllers/UsersController.swift:162-172 | a signed token verifies to exactly the payload it was signed with |
| `UsersController.AccessTokenPayload` | Sources/App/Controllers/UsersController.swift:150-160 | the issued token's payload copies id, name and email from the user, with `exp = now + 3600` |
| `UsersController.UserIdFromBearerTokenAsWritten` | Sources/App/Controllers/UsersController.swift:134-148 | as written: no bearer gives nil; an unverifiable token fails; a verified token gives its id only when `exp < now`, otherwise nil |
| `UsersController.AsWrittenAcceptsOnlyExpiredTokens` | Sources/App/Controllers/UsersController.swift:142-144 | as written, a token issued at `t0` yields nil at every time up to `t0 + 3600`, and yields its user's id only after that (payload verification is taken to accept expired tokens, see Left out) |
| `UsersController.AsWrittenRefusesFreshToken` | Sources/App/Controllers/UsersController.swift:142-144 | concrete case: a token presented the second it was issued yields no user |
| `UsersController.UserIdFromBearerToken` | Sources/App/Controllers/UsersController.swift:134-148 | corrected check: no bearer gives nil; an unverifiable token fails; a verified token gives its id only while `now < exp`, otherwise nil |
| `UsersController.IssuedTokenAuthenticatesUntilExpiry` | Sources/App/Controllers/UsersController.swift:142-158 | corrected check: a token issued at `t0` authenticates its user before `t0 + 3600` and not from then on |
| `UsersController.Login` | Sources/App/Controllers/UsersController.swift:91-115 | every failure is one of the three 401 errors; a success comes from a row with that email, the matching hash, confirmed and not blocked, and carries that row's access token |
| `UsersController.LoginCheckOrder` | Sources/App/Controllers/UsersController.swift:94-113 | for the row with that email: a wrong password is reported before an unconfirmed email, which is reported before a blocked account; otherwise the row's token is returned |
| `UsersController.LoginUnknownEmailLikeWrongPassword` | Sources/App/Controllers/UsersController.swift:94-101 | an unknown email and a wrong password both give "Invalid email or password." |
| `UsersController.LoginSucceedsIff` | Sources/App/Controllers/UsersController.swift:92-113 | sign-in succeeds if and only if a row with that email has the matching hash, is confirmed and is not blocked |
| `UsersController.RegisterOutcome` | Sources/App/Controllers/UsersController.swift:50-88 | checks run in order: security token, password, captcha, email; each failure gives its exact error and leaves the table unchanged; success adds exactly one row under the fresh id, holding `hash(password, salt)`, the supplied salt and GUID, unconfirmed and unblocked, and leaves every other row unchanged |
| `UsersController.RegisterPreservesInvariant` | Sources/App/Controllers/UsersController.swift:67-82 | registration keeps emails unique and rows stored under their own id |
| `UsersController.DuplicateRegistrationRefused` | Sources/App/Controllers/UsersController.swift:67-71 | a second registration with the same email fails with "User with email '…' exists." and creates no row |
| `UsersController.ConfirmOutcome` | Sources/App/Controllers/UsersController.swift:118-132 | succeeds exactly when the id exists and its GUID matches; an unknown id and a mismatch give the same error and change nothing; success sets only `emailWasConfirmed` |
| `UsersController.ConfirmPreservesInvariant` | Sources/App/Controllers/UsersController.swift:129-130 | confirmation keeps the table invariant |
| `UsersController.ConfirmRepeatable` | Sources/App/Controllers/UsersController.swift:125-130 | the GUID is kept after a successful confirmation, so the same confirmation succeeds again and changes nothing more |
| `UsersController.RegisterConfirmSignIn` | Sources/App/Controllers/UsersController.swift:50-132 | register, then sign-in fails with "User email was not confirmed."; confirm with the record's GUID, then sign-in succeeds with a token for that email that authenticates the new id |
| `UsersController.UserStore.Register` | Sources/App/Controllers/UsersController.swift:50-88 | the in-place table update and the response are those of `RegisterOutcome`, and the invariant is kept |
| `UsersController.UserStore.Confirm` | Sources/App/Controllers/UsersController.swift:118-132 | the in-place table update and the response are those of `ConfirmOutcome`, and the invariant is kept |
| `UsersController.UserStore.Profile` | Sources/App/Controllers/UsersController.swift:26-47 | unknown id gives "User with id '…' not exists."; an unverifiable bearer token fails; otherwise the user's DTO, whose email is blank unless the as-written token check yields the requested id; always blank without a bearer token or with a token that has not yet expired; shown to the id of an expired token |
| `EmailsService.ForgotPasswordBody` | Sources/App/Services/EmailsService.swift:45 | the body contains `https://letterer.me/reset-password?token=<guid>` |
| `EmailsService.ConfirmAccountBody` | Sources/App/Services/EmailsService.swift:72 | the body contains `https://letterer.me/confirm-email?token=<guid>&user=<id>` |
| `EmailsService.SendForgotPasswordEmail` | Sources/App/Services/EmailsService.swift:28-53 | a missing service address gives the 500 error before the missing-GUID check gives `tokenNotGenerated`; otherwise it posts to `<address>/emails`, to the user's email and name, titled "Letterer - Forgot password", with the reset link in the body |
| `EmailsService.SendConfirmAccountEmail` | Sources/App/Services/EmailsService.swift:55-80 | a missing service address gives the 500 error before a missing user id gives `userIdNotExists`; otherwise it posts to `<address>/emails`, to the user's email and name, titled "Letterer - Confirm email", with the confirmation link in the body |

## Findings

| source | as written | input that shows it | evidently intended | confidence | as-written member | corrected member |
|---|---|---|---|---|---|---|
| Sources/App/Controllers/UsersController.swift:142 | the bearer token's id is used only when `exp < Date()`, that is, only after the token has expired | a token issued at time 1000 and presented at 1000 (exp 4600) yields no user, so an owner never sees their own email on the profile; if the unshown payload verification accepts expired tokens, the same token presented after 4600 authenticates | use the id only while `Date() < exp` | high (not executed) | `UsersController.UserIdFromBearerTokenAsWritten` | `UsersController.UserIdFromBearerToken` |

The lemmas `AsWrittenAcceptsOnlyExpiredTokens` and `AsWrittenRefusesFreshToken` exhibit the defect in the as-written check. The lemma `IssuedTokenAuthenticatesUntilExpiry` proves the intended behaviour of the corrected check. `UserStore.Profile` calls the check as written, as line 38 of the controller does, and its contract states the consequence: an owner whose token has not yet expired sees a blank email. `RegisterConfirmSignIn` shows the sign-in token's id with the corrected check.

## Left out

- Vapor routing (`boot`), request decoding and response encoding are HTTP glue.
- Futures and event loops are replaced by sequential methods. Races between concurrent registers or confirms are not modelled.
- Fluent queries and saves are replaced by the in-memory table. Storage failures are not modelled.
- `Password.generateSalt`, `Password.hash`, RSA key loading and RS512 signing and verification are foreign code. Hash, salt and signing are abstracted as described above, and a failure inside them is not modelled.
- `createAccessToken`'s UTF-8 fallback to `""` is not modelled, because the signed token is abstract.
- `UUID()` and `Date()` are inputs. Time is whole seconds, not a floating-point `TimeInterval`.
- The HTTP post in `EmailsService` is not modelled, and neither is what happens when it fails. `User.getUserName()` is an input.
- `UsersController.FindByEmail`: when several rows share an email, it picks one arbitrarily, as `first()` does. The login lemmas assume unique emails, which is the store's invariant.
- `UsersController.UserStore.Register`: requires that the supplied id is not already in the table. The model does not cover a UUID collision.
- `UsersController.RegisterOutcome`: requires that the supplied id is not already in the table, as `UserStore.Register` does. The model does not cover a UUID collision.
- `UsersController.Verify`: the payload's own `verify(using:)` hook, which JWT decoding runs at line 140, is not part of this model. It is taken to accept every correctly signed payload, so expiry is checked only by the comparison at line 142.
- The response DTO keeps only id, email and name, because the rest of `UserDto` is not part of this model.
- `ForgotPasswordController` and the users service's `forgotPassword` / `confirmForgotPassword` are not part of this model. The forgot-password GUID is an existing field of the record.
- `CaptchaService` is not modelled. Its verdict enters only as a boolean.
