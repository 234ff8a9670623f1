/**
 * The HTTP statuses and the errors that the modelled handlers raise.
 * A Vapor `Abort(status, reason:)` becomes `Abort(status, reason)`; the
 * application's own error enums become their own constructors.
 */
module AppErrors {

  /** The subset of Vapor's HTTPResponseStatus values the core uses. */
  datatype HttpStatus = Ok | BadRequest | Unauthorized | NotFound | InternalServerError
  {
    /** The numeric status code sent on the wire. */
    function Code(): nat
    {
      match this
      case Ok => 200
      case BadRequest => 400
      case Unauthorized => 401
      case NotFound => 404
      case InternalServerError => 500
    }
  }

  datatype AppError =
    | Abort(status: HttpStatus, reason: string)
      /** The bearer token could not be verified as an RS512-signed JWT. */
    | JwtVerificationFailed
      /** `ForgotPasswordError.tokenNotGenerated` */
    | ForgotPasswordTokenNotGenerated
      /** `RegisterError.userIdNotExists` */
    | RegisterUserIdNotExists
}
