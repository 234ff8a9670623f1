/** The `EntityNotFoundError` enum and the error fields it reports. */
module EntityNotFound {
  import opened Wrappers
  import opened AppErrors

  datatype EntityNotFoundError = UserNotFound | RefreshTokenNotFound | RoleNotFound

  /** Every case is reported as 404 Not Found. */
  function Status(e: EntityNotFoundError): (s: HttpStatus)
    ensures s.Code() == 404
  {
    NotFound
  }

  /** The human-readable message, including the missing space in the role case. */
  function Reason(e: EntityNotFoundError): string
  {
    match e
    case UserNotFound => "User not exists."
    case RefreshTokenNotFound => "Refresh token not exists."
    case RoleNotFound => "Rolenot exists."
  }

  function Identifier(e: EntityNotFoundError): string
  {
    "entity-not-found"
  }

  /** The enum's String raw value, which Swift derives from the case name. */
  function Code(e: EntityNotFoundError): string
  {
    match e
    case UserNotFound => "userNotFound"
    case RefreshTokenNotFound => "refreshTokenNotFound"
    case RoleNotFound => "roleNotFound"
  }

  /** Swift's synthesised `init?(rawValue:)`, the partner of `Code`. */
  function FromRawValue(s: string): (r: Option<EntityNotFoundError>)
    ensures r.Some? ==> Code(r.value) == s
    ensures r.None? ==> forall e :: Code(e) != s
  {
    if s == "userNotFound" then Some(UserNotFound)
    else if s == "refreshTokenNotFound" then Some(RefreshTokenNotFound)
    else if s == "roleNotFound" then Some(RoleNotFound)
    else None
  }

  /** `code` and `init?(rawValue:)` are inverse. */
  lemma RawValueRoundTrip(e: EntityNotFoundError)
    ensures FromRawValue(Code(e)) == Some(e)
  {
  }

  lemma ExactlyThreeCases(e: EntityNotFoundError)
    ensures e == UserNotFound || e == RefreshTokenNotFound || e == RoleNotFound
  {
  }

  lemma StatusAndIdentifierAreUniform(e: EntityNotFoundError, e': EntityNotFoundError)
    ensures Status(e) == Status(e') == NotFound
    ensures Identifier(e) == Identifier(e') == "entity-not-found"
  {
  }

  lemma ReasonLiterals()
    ensures Reason(UserNotFound) == "User not exists."
    ensures Reason(RefreshTokenNotFound) == "Refresh token not exists."
    ensures Reason(RoleNotFound) == "Rolenot exists."
  {
  }

  /** Distinct cases give distinct messages. */
  lemma ReasonInjective(e: EntityNotFoundError, e': EntityNotFoundError)
    ensures Reason(e) == Reason(e') ==> e == e'
  {
  }
}
