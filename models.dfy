/** The persisted user record and the user DTO sent back to clients. */
module Models {
  import opened Wrappers

  /** A user id, the UUID's string form. */
  type UserId = string

  /**
   * A row of the users table. `id` is optional as in the Fluent model (it is
   * assigned on save); `password` holds the salted hash, never the plaintext.
   */
  datatype User = User(
    id: Option<UserId>,
    email: string,
    name: string,
    password: string,
    salt: string,
    emailConfirmationGuid: string,
    emailWasConfirmed: bool,
    isBlocked: bool,
    forgotPasswordGuid: Option<string>)

  /** The fields of `UserDto` that the core reads or writes. */
  datatype UserDto = UserDto(id: Option<UserId>, email: string, name: string)

  /** `UserDto(from: user)`: the public view of a record. */
  function ToDto(u: User): UserDto
  {
    UserDto(u.id, u.email, u.name)
  }
}
