/**
 * The account-state logic of the users controller: registration, sign-in,
 * email confirmation, the profile view and the bearer-token check.
 *
 * Collaborators enter as parameters: `hash` is `Password.hash(password,
 * withSalt: salt)`, an uninterpreted deterministic function; the captcha
 * verdict is a boolean; the fresh salt, user id and confirmation GUID are
 * supplied by the caller; `now` is `Date()` in whole seconds. JWT signing is
 * an opaque wrap of the payload: only `Sign` produces a token that verifies.
 */
module UsersController {
  import opened Wrappers
  import opened AppErrors
  import opened Models

  /** `Password.hash(password, withSalt: salt)`. */
  type Hasher = (string, string) -> string

  /** The users table, keyed by id. */
  type Table = map<UserId, User>

  /** Validity window of an access token, `TimeInterval(3600.0)` in seconds. */
  const TokenLifetime: int := 3600

  datatype AuthorizationPayload = AuthorizationPayload(id: Option<UserId>, name: string, email: string, exp: int)

  /**
   * A bearer token as presented by a client: either one produced by signing
   * a payload with the service's RSA key, or any other string, which fails
   * RS512 verification.
   */
  datatype AccessToken = Signed(payload: AuthorizationPayload) | Unverifiable(raw: string)

  datatype RegisterRequest = RegisterRequest(email: string, name: string, password: Option<string>, securityToken: Option<string>)
  datatype SignInRequest = SignInRequest(email: string, password: string)
  datatype SignInResponse = SignInResponse(accessToken: AccessToken)
  datatype ConfirmEmailRequest = ConfirmEmailRequest(id: UserId, confirmationGuid: string)

  /** What a state-changing handler answers, and the table after it. */
  datatype Reply<T> = Reply(response: Result<T, AppError>, users: Table)

  // The errors the handlers raise, with their exact reasons.
  const SecurityTokenMandatory := Abort(BadRequest, "Security token is mandatory.")
  const PasswordRequired := Abort(BadRequest, "Password is required.")
  const SecurityTokenInvalid := Abort(BadRequest, "Security token is invalid.")
  const InvalidEmailOrPassword := Abort(Unauthorized, "Invalid email or password.")
  const EmailNotConfirmed := Abort(Unauthorized, "User email was not confirmed.")
  const AccountBlocked := Abort(Unauthorized, "User account is blocked.")
  const InvalidIdOrToken := Abort(BadRequest, "Invalid id or confirmation token.")

  function EmailExists(email: string): AppError
  {
    Abort(BadRequest, "User with email '" + email + "' exists.")
  }

  function UserNotExists(id: UserId): AppError
  {
    Abort(BadRequest, "User with id '" + id + "' not exists.")
  }

  // ---------------------------------------------------------------------
  // The table and its invariant

  predicate HasEmail(users: Table, email: string)
  {
    exists id :: id in users && users[id].email == email
  }

  predicate EmailsUnique(users: Table)
  {
    forall i, j :: i in users && j in users && users[i].email == users[j].email ==> i == j
  }

  predicate IdsMatchKeys(users: Table)
  {
    forall k :: k in users ==> users[k].id == Some(k)
  }

  /** What every reachable table satisfies: rows are stored under their own id, and no two share an email. */
  predicate TableInvariant(users: Table)
  {
    IdsMatchKeys(users) && EmailsUnique(users)
  }

  predicate PasswordMatches(hash: Hasher, u: User, password: string)
  {
    hash(password, u.salt) == u.password
  }

  /**
   * `User.query(on:).filter(\.email == email).first()`: some row with that
   * email, chosen arbitrarily but deterministically when there are several.
   */
  ghost function FindByEmail(users: Table, email: string): (r: Option<User>)
    ensures r.Some? <==> HasEmail(users, email)
    ensures r.Some? ==> exists id :: id in users && users[id] == r.value && r.value.email == email
  {
    if HasEmail(users, email) then
      var id :| id in users && users[id].email == email;
      Some(users[id])
    else
      None
  }

  lemma FindByEmailUnique(users: Table, id: UserId)
    requires EmailsUnique(users) && id in users
    ensures FindByEmail(users, users[id].email) == Some(users[id])
  {
  }

  // ---------------------------------------------------------------------
  // Access tokens

  function Sign(p: AuthorizationPayload): AccessToken
  {
    Signed(p)
  }

  /** `JWT<AuthorizationPayload>(from:verifiedUsing:)`: only signed tokens verify. */
  function Verify(t: AccessToken): (r: Result<AuthorizationPayload, AppError>)
    ensures r.Success? ==> t == Sign(r.value)
    ensures r.Failure? ==> r.error == JwtVerificationFailed
  {
    match t
    case Signed(p) => Success(p)
    case Unverifiable(_) => Failure(JwtVerificationFailed)
  }

  /** A signed token verifies to exactly the payload it was signed with. */
  lemma SignVerifyRoundTrip(p: AuthorizationPayload)
    ensures Verify(Sign(p)) == Success(p)
  {
  }

  function CreateAuthorizationPayload(u: User, now: int): AuthorizationPayload
  {
    AuthorizationPayload(u.id, u.name, u.email, now + TokenLifetime)
  }

  function CreateAccessToken(u: User, now: int): AccessToken
  {
    Sign(CreateAuthorizationPayload(u, now))
  }

  /** The issued token carries the user's id, name and email and expires one hour after issue. */
  lemma AccessTokenPayload(u: User, now: int)
    ensures Verify(CreateAccessToken(u, now)) == Success(AuthorizationPayload(u.id, u.name, u.email, now + 3600))
  {
  }

  /**
   * `getUserIdFromBearerToken` as written: the id is taken only when the
   * token's expiry is already in the past (`exp < Date()`).
   */
  function UserIdFromBearerTokenAsWritten(bearer: Option<AccessToken>, now: int): (r: Result<Option<UserId>, AppError>)
    ensures r.Failure? <==> bearer.Some? && bearer.value.Unverifiable?
    ensures r.Failure? ==> r.error == JwtVerificationFailed
    ensures r.Success? && r.value.Some? ==>
              bearer.Some? && bearer.value.Signed? && bearer.value.payload.exp < now && r.value == bearer.value.payload.id
    ensures bearer.Some? && bearer.value.Signed? && bearer.value.payload.exp < now ==> r == Success(bearer.value.payload.id)
    ensures bearer.Some? && bearer.value.Signed? && now <= bearer.value.payload.exp ==> r == Success(None)
  {
    match bearer
    case None => Success(None)
    case Some(token) =>
      match Verify(token)
      case Failure(e) => Failure(e)
      case Success(p) => if p.exp < now then Success(p.id) else Success(None)
  }

  /** A freshly issued token is refused for its whole validity window and accepted only once it has expired. */
  lemma AsWrittenAcceptsOnlyExpiredTokens(u: User, issuedAt: int, now: int)
    ensures now <= issuedAt + TokenLifetime ==>
              UserIdFromBearerTokenAsWritten(Some(CreateAccessToken(u, issuedAt)), now) == Success(None)
    ensures now > issuedAt + TokenLifetime ==>
              UserIdFromBearerTokenAsWritten(Some(CreateAccessToken(u, issuedAt)), now) == Success(u.id)
  {
  }

  /** Concretely: the owner's token, presented the second it was issued, yields no user. */
  lemma AsWrittenRefusesFreshToken()
    ensures var u := User(Some("42"), "a@x.com", "Ann", "h", "s", "g", true, false, None);
            UserIdFromBearerTokenAsWritten(Some(CreateAccessToken(u, 1000)), 1000) == Success(None)
  {
  }

  /** The bearer-token check with the evidently intended comparison: accepted while `now < exp`. */
  function UserIdFromBearerToken(bearer: Option<AccessToken>, now: int): (r: Result<Option<UserId>, AppError>)
    ensures r.Failure? <==> bearer.Some? && bearer.value.Unverifiable?
    ensures r.Failure? ==> r.error == JwtVerificationFailed
    ensures r.Success? && r.value.Some? ==>
              bearer.Some? && bearer.value.Signed? && now < bearer.value.payload.exp && r.value == bearer.value.payload.id
    ensures bearer.Some? && bearer.value.Signed? && now < bearer.value.payload.exp ==> r == Success(bearer.value.payload.id)
    ensures bearer.Some? && bearer.value.Signed? && bearer.value.payload.exp <= now ==> r == Success(None)
  {
    match bearer
    case None => Success(None)
    case Some(token) =>
      match Verify(token)
      case Failure(e) => Failure(e)
      case Success(p) => if now < p.exp then Success(p.id) else Success(None)
  }

  /** A token issued at `issuedAt` authenticates its user until `issuedAt + 3600` and not from then on. */
  lemma IssuedTokenAuthenticatesUntilExpiry(u: User, issuedAt: int, now: int)
    ensures now < issuedAt + TokenLifetime ==>
              UserIdFromBearerToken(Some(CreateAccessToken(u, issuedAt)), now) == Success(u.id)
    ensures now >= issuedAt + TokenLifetime ==>
              UserIdFromBearerToken(Some(CreateAccessToken(u, issuedAt)), now) == Success(None)
  {
  }

  // ---------------------------------------------------------------------
  // Sign-in

  /**
   * `login`: look the user up by email, then check the password, the
   * confirmation flag and the blocked flag, in that order. It reads the
   * table and never changes it.
   */
  ghost function Login(users: Table, hash: Hasher, req: SignInRequest, now: int): (r: Result<SignInResponse, AppError>)
    ensures r.Failure? ==> r.error in {InvalidEmailOrPassword, EmailNotConfirmed, AccountBlocked}
    ensures r.Success? ==>
              exists id :: id in users && users[id].email == req.email
                && PasswordMatches(hash, users[id], req.password)
                && users[id].emailWasConfirmed && !users[id].isBlocked
                && r.value.accessToken == CreateAccessToken(users[id], now)
  {
    match FindByEmail(users, req.email)
    case None => Failure(InvalidEmailOrPassword)
    case Some(u) =>
      if !PasswordMatches(hash, u, req.password) then Failure(InvalidEmailOrPassword)
      else if !u.emailWasConfirmed then Failure(EmailNotConfirmed)
      else if u.isBlocked then Failure(AccountBlocked)
      else Success(SignInResponse(CreateAccessToken(u, now)))
  }

  /**
   * With unique emails, the outcome is decided by the one matching row:
   * a wrong password is reported before an unconfirmed email, which is
   * reported before a blocked account.
   */
  lemma LoginCheckOrder(users: Table, hash: Hasher, req: SignInRequest, now: int, id: UserId)
    requires EmailsUnique(users)
    requires id in users && users[id].email == req.email
    ensures !PasswordMatches(hash, users[id], req.password) ==>
              Login(users, hash, req, now) == Failure(InvalidEmailOrPassword)
    ensures PasswordMatches(hash, users[id], req.password) && !users[id].emailWasConfirmed ==>
              Login(users, hash, req, now) == Failure(EmailNotConfirmed)
    ensures PasswordMatches(hash, users[id], req.password) && users[id].emailWasConfirmed && users[id].isBlocked ==>
              Login(users, hash, req, now) == Failure(AccountBlocked)
    ensures PasswordMatches(hash, users[id], req.password) && users[id].emailWasConfirmed && !users[id].isBlocked ==>
              Login(users, hash, req, now) == Success(SignInResponse(CreateAccessToken(users[id], now)))
  {
    FindByEmailUnique(users, id);
  }

  /** An unknown email and a wrong password give the same error, so a caller cannot tell them apart. */
  lemma LoginUnknownEmailLikeWrongPassword(users: Table, hash: Hasher, req: SignInRequest, now: int)
    requires EmailsUnique(users)
    requires !HasEmail(users, req.email) ||
             exists id :: id in users && users[id].email == req.email && !PasswordMatches(hash, users[id], req.password)
    ensures Login(users, hash, req, now) == Failure(InvalidEmailOrPassword)
  {
    if HasEmail(users, req.email) {
      var id :| id in users && users[id].email == req.email && !PasswordMatches(hash, users[id], req.password);
      LoginCheckOrder(users, hash, req, now, id);
    }
  }

  /** Sign-in succeeds exactly when a row with that email has the password, is confirmed and is not blocked. */
  lemma LoginSucceedsIff(users: Table, hash: Hasher, req: SignInRequest, now: int)
    requires EmailsUnique(users)
    ensures Login(users, hash, req, now).Success? <==>
              exists id :: id in users && users[id].email == req.email
                && PasswordMatches(hash, users[id], req.password)
                && users[id].emailWasConfirmed && !users[id].isBlocked
  {
    if exists id :: id in users && users[id].email == req.email
                && PasswordMatches(hash, users[id], req.password)
                && users[id].emailWasConfirmed && !users[id].isBlocked
    {
      var id :| id in users && users[id].email == req.email
                && PasswordMatches(hash, users[id], req.password)
                && users[id].emailWasConfirmed && !users[id].isBlocked;
      LoginCheckOrder(users, hash, req, now, id);
    }
  }

  // ---------------------------------------------------------------------
  // Registration

  /** The record `register` saves: the salted hash, the supplied salt and GUID, unconfirmed and not blocked. */
  function NewUser(req: RegisterRequest, passwordHash: string, salt: string, id: UserId, guid: string): User
  {
    User(Some(id), req.email, req.name, passwordHash, salt, guid, false, false, None)
  }

  /**
   * `register` as a transition of the table. The security token is checked
   * first, then the password, then the captcha verdict, then the email.
   */
  function RegisterOutcome(users: Table, hash: Hasher, req: RegisterRequest, captchaPassed: bool,
                           salt: string, newId: UserId, guid: string): (r: Reply<UserDto>)
    requires newId !in users
    ensures r.response.Failure? ==> r.users == users
    ensures req.securityToken.None? ==> r.response == Failure(SecurityTokenMandatory)
    ensures req.securityToken.Some? && req.password.None? ==> r.response == Failure(PasswordRequired)
    ensures req.securityToken.Some? && req.password.Some? && !captchaPassed ==>
              r.response == Failure(SecurityTokenInvalid)
    ensures req.securityToken.Some? && req.password.Some? && captchaPassed && HasEmail(users, req.email) ==>
              r.response == Failure(EmailExists(req.email))
    ensures r.response.Success? <==>
              req.securityToken.Some? && req.password.Some? && captchaPassed && !HasEmail(users, req.email)
    ensures r.response.Success? ==>
              && r.users.Keys == users.Keys + {newId}
              && (forall k :: k in users ==> r.users[k] == users[k])
              && var u := r.users[newId];
              && u.id == Some(newId) && u.email == req.email && u.name == req.name
              && u.password == hash(req.password.value, salt) && u.salt == salt
              && u.emailConfirmationGuid == guid && !u.emailWasConfirmed && !u.isBlocked
              && r.response.value == ToDto(u)
  {
    if req.securityToken.None? then Reply(Failure(SecurityTokenMandatory), users)
    else if req.password.None? then Reply(Failure(PasswordRequired), users)
    else if !captchaPassed then Reply(Failure(SecurityTokenInvalid), users)
    else if HasEmail(users, req.email) then Reply(Failure(EmailExists(req.email)), users)
    else
      var u := NewUser(req, hash(req.password.value, salt), salt, newId, guid);
      Reply(Success(ToDto(u)), users[newId := u])
  }

  /** Registration keeps ids matching keys and emails unique. */
  lemma RegisterPreservesInvariant(users: Table, hash: Hasher, req: RegisterRequest, captchaPassed: bool,
                                   salt: string, newId: UserId, guid: string)
    requires TableInvariant(users) && newId !in users
    ensures TableInvariant(RegisterOutcome(users, hash, req, captchaPassed, salt, newId, guid).users)
  {
  }

  /** A second registration with the same email is refused and creates no record. */
  lemma DuplicateRegistrationRefused(users: Table, hash: Hasher, req: RegisterRequest, req2: RegisterRequest,
                                     salt: string, salt2: string, id: UserId, id2: UserId, guid: string, guid2: string)
    requires id !in users && id2 != id && id2 !in users
    requires req2.email == req.email && req2.securityToken.Some? && req2.password.Some?
    requires RegisterOutcome(users, hash, req, true, salt, id, guid).response.Success?
    ensures var after := RegisterOutcome(users, hash, req, true, salt, id, guid).users;
            RegisterOutcome(after, hash, req2, true, salt2, id2, guid2) == Reply(Failure(EmailExists(req.email)), after)
  {
  }

  // ---------------------------------------------------------------------
  // Email confirmation

  /** `after` differs from `before` only in that row `id` is now confirmed. */
  predicate OnlyConfirmed(before: Table, after: Table, id: UserId)
  {
    && id in before
    && after.Keys == before.Keys
    && after[id] == before[id].(emailWasConfirmed := true)
    && forall k :: k in before && k != id ==> after[k] == before[k]
  }

  /**
   * `confirm` as a transition of the table: an unknown id and a wrong GUID
   * give the same error; success sets the flag and keeps the GUID.
   */
  function ConfirmOutcome(users: Table, req: ConfirmEmailRequest): (r: Reply<HttpStatus>)
    ensures r.response.Success? <==>
              req.id in users && users[req.id].emailConfirmationGuid == req.confirmationGuid
    ensures r.response.Failure? ==> r.response.error == InvalidIdOrToken && r.users == users
    ensures r.response.Success? ==> r.response.value.Code() == 200 && OnlyConfirmed(users, r.users, req.id)
  {
    if req.id !in users then Reply(Failure(InvalidIdOrToken), users)
    else if users[req.id].emailConfirmationGuid != req.confirmationGuid then Reply(Failure(InvalidIdOrToken), users)
    else Reply(Success(Ok), users[req.id := users[req.id].(emailWasConfirmed := true)])
  }

  lemma ConfirmPreservesInvariant(users: Table, req: ConfirmEmailRequest)
    requires TableInvariant(users)
    ensures TableInvariant(ConfirmOutcome(users, req).users)
  {
  }

  /**
   * The GUID is not cleared, so the same confirmation succeeds again and
   * leaves the table as the first one did.
   */
  lemma ConfirmRepeatable(users: Table, req: ConfirmEmailRequest)
    requires ConfirmOutcome(users, req).response.Success?
    ensures var after := ConfirmOutcome(users, req).users;
            after[req.id].emailConfirmationGuid == req.confirmationGuid
            && ConfirmOutcome(after, req) == Reply(Success(Ok), after)
  {
  }

  /**
   * Register, then sign in (refused: email not confirmed), then confirm
   * with the GUID the record was created with, then sign in again: the
   * token names the new user.
   */
  lemma RegisterConfirmSignIn(users: Table, hash: Hasher, req: RegisterRequest, salt: string,
                              newId: UserId, guid: string, now: int)
    requires TableInvariant(users) && newId !in users
    requires req.securityToken.Some? && req.password.Some? && !HasEmail(users, req.email)
    ensures var reg := RegisterOutcome(users, hash, req, true, salt, newId, guid);
            var signIn := SignInRequest(req.email, req.password.value);
            var conf := ConfirmOutcome(reg.users, ConfirmEmailRequest(newId, guid));
            && reg.response.Success?
            && Login(reg.users, hash, signIn, now) == Failure(EmailNotConfirmed)
            && conf.response.Success?
            && Login(conf.users, hash, signIn, now).Success?
            && var token := Login(conf.users, hash, signIn, now).value.accessToken;
            && Verify(token).Success? && Verify(token).value.email == req.email
            && UserIdFromBearerToken(Some(token), now) == Success(Some(newId))
  {
    var reg := RegisterOutcome(users, hash, req, true, salt, newId, guid);
    var signIn := SignInRequest(req.email, req.password.value);
    RegisterPreservesInvariant(users, hash, req, true, salt, newId, guid);
    LoginCheckOrder(reg.users, hash, signIn, now, newId);
    var conf := ConfirmOutcome(reg.users, ConfirmEmailRequest(newId, guid));
    ConfirmPreservesInvariant(reg.users, ConfirmEmailRequest(newId, guid));
    LoginCheckOrder(conf.users, hash, signIn, now, newId);
    IssuedTokenAuthenticatesUntilExpiry(conf.users[newId], now, now);
  }

  // ---------------------------------------------------------------------
  // The store

  /** The users table that the handlers read and update in place. */
  class UserStore {
    var users: Table

    ghost predicate Valid()
      reads this
    {
      TableInvariant(users)
    }

    constructor ()
      ensures Valid() && users == map[]
    {
      users := map[];
    }

    /** `register`: on success one new row is saved under the fresh id. */
    method Register(hash: Hasher, req: RegisterRequest, captchaPassed: bool,
                    salt: string, newId: UserId, guid: string) returns (r: Result<UserDto, AppError>)
      requires Valid() && newId !in users
      modifies this
      ensures Valid()
      ensures var reply := RegisterOutcome(old(users), hash, req, captchaPassed, salt, newId, guid);
              r == reply.response && users == reply.users
    {
      RegisterPreservesInvariant(users, hash, req, captchaPassed, salt, newId, guid);
      if req.securityToken.None? {
        return Failure(SecurityTokenMandatory);
      }
      if req.password.None? {
        return Failure(PasswordRequired);
      }
      if !captchaPassed {
        return Failure(SecurityTokenInvalid);
      }
      if exists id :: id in users && users[id].email == req.email {
        return Failure(EmailExists(req.email));
      }
      var passwordHash := hash(req.password.value, salt);
      var user := NewUser(req, passwordHash, salt, newId, guid);
      users := users[newId := user];
      r := Success(ToDto(user));
    }

    /** `confirm`: the matching row's flag is set in place. */
    method Confirm(req: ConfirmEmailRequest) returns (r: Result<HttpStatus, AppError>)
      requires Valid()
      modifies this
      ensures Valid()
      ensures var reply := ConfirmOutcome(old(users), req);
              r == reply.response && users == reply.users
    {
      ConfirmPreservesInvariant(users, req);
      if req.id !in users {
        return Failure(InvalidIdOrToken);
      }
      var user := users[req.id];
      if user.emailConfirmationGuid != req.confirmationGuid {
        return Failure(InvalidIdOrToken);
      }
      user := user.(emailWasConfirmed := true);
      users := users[req.id := user];
      r := Success(Ok);
    }

    /**
     * `profile`: the requested user's DTO, with the email blanked unless the
     * bearer token identifies that same user. The owner is found with the
     * check as written, so a caller whose token has not yet expired is never
     * treated as the owner.
     */
    method Profile(id: UserId, bearer: Option<AccessToken>, now: int) returns (r: Result<UserDto, AppError>)
      ensures id !in users ==> r == Failure(UserNotExists(id))
      ensures id in users && bearer.Some? && bearer.value.Unverifiable? ==> r == Failure(JwtVerificationFailed)
      ensures r.Success? ==> id in users && r.value.id == users[id].id && r.value.name == users[id].name
      ensures r.Success? ==>
                r.value.email == if UserIdFromBearerTokenAsWritten(bearer, now) == Success(Some(id)) then users[id].email else ""
      ensures id in users && bearer.None? ==> r.Success? && r.value.email == ""
      ensures id in users && (bearer.None? || bearer.value.Signed?) ==> r.Success?
      ensures id in users && bearer.Some? && bearer.value.Signed? && now <= bearer.value.payload.exp ==>
                r.Success? && r.value.email == ""
      ensures id in users && bearer.Some? && bearer.value.Signed? && bearer.value.payload.exp < now
                && bearer.value.payload.id == Some(id) ==>
                r == Success(ToDto(users[id]))
    {
      if id !in users {
        return Failure(UserNotExists(id));
      }
      var userDto := ToDto(users[id]);
      var userIdFromToken := UserIdFromBearerTokenAsWritten(bearer, now);
      if userIdFromToken.Failure? {
        return Failure(userIdFromToken.error);
      }
      var isProfileOwner := userIdFromToken.value == Some(id);
      if !isProfileOwner {
        userDto := userDto.(email := "");
      }
      r := Success(userDto);
    }
  }
}
