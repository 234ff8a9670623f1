/**
 * The emails service: the checks made before posting an email and the
 * message it posts. The HTTP post itself is not modelled; each method is a
 * function that yields either the error it throws or the post it would send.
 */
module EmailsService {
  import opened Wrappers
  import opened AppErrors
  import opened Models

  datatype EmailAddress = EmailAddress(address: string, name: string)
  datatype Email = Email(to: EmailAddress, title: string, body: string)

  /** A post of `email` to `uri`. */
  datatype EmailPost = EmailPost(uri: string, email: Email)

  const EmailServiceNotConfigured := Abort(InternalServerError, "Email service is not configured in database.")
  const ForgotPasswordTitle := "Letterer - Forgot password"
  const ConfirmEmailTitle := "Letterer - Confirm email"

  /** `s` has `t` as a contiguous part. */
  predicate Contains(s: string, t: string)
  {
    exists i :: 0 <= i <= |s| && t <= s[i..]
  }

  lemma {:induction false} ContainsInfix(a: string, b: string, c: string)
    ensures Contains(a + b + c, b)
  {
    var s := a + b + c;
    assert s[|a|..] == b + c;
    assert b <= s[|a|..];
  }

  /** `<emailServiceAddress>/emails` */
  function EmailsUri(emailServiceAddress: string): string
  {
    emailServiceAddress + "/emails"
  }

  function ResetPasswordLink(forgotPasswordGuid: string): string
  {
    "https://letterer.me/reset-password?token=" + forgotPasswordGuid
  }

  function ConfirmEmailLink(emailConfirmationGuid: string, userId: UserId): string
  {
    "https://letterer.me/confirm-email?token=" + emailConfirmationGuid + "&user=" + userId
  }

  function ForgotPasswordBody(userName: string, forgotPasswordGuid: string): (body: string)
    ensures Contains(body, ResetPasswordLink(forgotPasswordGuid))
  {
    var before := "<html><body><div>Hi " + userName
      + ",</div><div>You can reset your password by clicking following <a href='";
    var after := "'>link</a>.</div></body></html>";
    ContainsInfix(before, ResetPasswordLink(forgotPasswordGuid), after);
    before + ResetPasswordLink(forgotPasswordGuid) + after
  }

  function ConfirmAccountBody(userName: string, emailConfirmationGuid: string, userId: UserId): (body: string)
    ensures Contains(body, ConfirmEmailLink(emailConfirmationGuid, userId))
  {
    var before := "<html><body><div>Hi " + userName
      + ",</div><div>Please confirm your account by clicking following <a href='";
    var after := "'>link</a>.</div></body></html>";
    ContainsInfix(before, ConfirmEmailLink(emailConfirmationGuid, userId), after);
    before + ConfirmEmailLink(emailConfirmationGuid, userId) + after
  }

  /**
   * `sendForgotPasswordEmail`. `userName` is the value of `user.getUserName()`,
   * whose body is not part of this model; `emailServiceAddress` is the
   * configured address, if any.
   */
  function SendForgotPasswordEmail(emailServiceAddress: Option<string>, user: User, userName: string): (r: Result<EmailPost, AppError>)
    ensures emailServiceAddress.None? ==> r == Failure(EmailServiceNotConfigured)
    ensures emailServiceAddress.Some? && user.forgotPasswordGuid.None? ==> r == Failure(ForgotPasswordTokenNotGenerated)
    ensures r.Success? <==> emailServiceAddress.Some? && user.forgotPasswordGuid.Some?
    ensures r.Success? ==>
              && r.value.uri == emailServiceAddress.value + "/emails"
              && r.value.email.to == EmailAddress(user.email, user.name)
              && r.value.email.title == "Letterer - Forgot password"
              && Contains(r.value.email.body, "https://letterer.me/reset-password?token=" + user.forgotPasswordGuid.value)
  {
    match emailServiceAddress
    case None => Failure(EmailServiceNotConfigured)
    case Some(address) =>
      match user.forgotPasswordGuid
      case None => Failure(ForgotPasswordTokenNotGenerated)
      case Some(guid) =>
        var to := EmailAddress(user.email, user.name);
        Success(EmailPost(EmailsUri(address), Email(to, ForgotPasswordTitle, ForgotPasswordBody(userName, guid))))
  }

  /** `sendConfirmAccountEmail`: the link carries the confirmation GUID and the user id. */
  function SendConfirmAccountEmail(emailServiceAddress: Option<string>, user: User, userName: string): (r: Result<EmailPost, AppError>)
    ensures emailServiceAddress.None? ==> r == Failure(EmailServiceNotConfigured)
    ensures emailServiceAddress.Some? && user.id.None? ==> r == Failure(RegisterUserIdNotExists)
    ensures r.Success? <==> emailServiceAddress.Some? && user.id.Some?
    ensures r.Success? ==>
              && r.value.uri == emailServiceAddress.value + "/emails"
              && r.value.email.to == EmailAddress(user.email, user.name)
              && r.value.email.title == "Letterer - Confirm email"
              && Contains(r.value.email.body,
                          "https://letterer.me/confirm-email?token=" + user.emailConfirmationGuid + "&user=" + user.id.value)
  {
    match emailServiceAddress
    case None => Failure(EmailServiceNotConfigured)
    case Some(address) =>
      match user.id
      case None => Failure(RegisterUserIdNotExists)
      case Some(userId) =>
        var to := EmailAddress(user.email, user.name);
        Success(EmailPost(EmailsUri(address), Email(to, ConfirmEmailTitle, ConfirmAccountBody(userName, user.emailConfirmationGuid, userId))))
  }
}
