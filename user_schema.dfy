/**
 * Request and response shapes of the authentication endpoints. The length
 * checks are the `Field(min_length=...)` constraints; the parse functions say
 * which raw bodies pass them. `EmailStr` syntax checking is not modelled: an
 * email is an opaque string.
 */
module UserSchema {
  import opened Wrappers
  import opened Security
  import opened UserModel

  const MIN_NAME_LENGTH: nat := 1
  const MIN_PASSWORD_LENGTH: nat := 8

  datatype UserCreate = UserCreate(email: string, name: string, password: string)

  /** The current password is unconstrained; the new one needs eight characters. */
  datatype UserChangePassword = UserChangePassword(currentPassword: string, newPassword: string)

  datatype UserResetPassword = UserResetPassword(token: string, newPassword: string)

  datatype UserChangeEmail = UserChangeEmail(currentEmail: string, currentPassword: string, newEmail: string)

  function ParseUserCreate(email: string, name: string, password: string): (r: Option<UserCreate>)
    ensures r.Some? <==> |name| >= MIN_NAME_LENGTH && |password| >= MIN_PASSWORD_LENGTH
    ensures r.Some? ==> r.value == UserCreate(email, name, password)
  {
    if |name| >= MIN_NAME_LENGTH && |password| >= MIN_PASSWORD_LENGTH then Some(UserCreate(email, name, password))
    else None
  }

  function ParseUserChangePassword(currentPassword: string, newPassword: string): (r: Option<UserChangePassword>)
    ensures r.Some? <==> |newPassword| >= MIN_PASSWORD_LENGTH
    ensures r.Some? ==> r.value == UserChangePassword(currentPassword, newPassword)
  {
    if |newPassword| >= MIN_PASSWORD_LENGTH then Some(UserChangePassword(currentPassword, newPassword)) else None
  }

  function ParseUserResetPassword(token: string, newPassword: string): (r: Option<UserResetPassword>)
    ensures r.Some? <==> |newPassword| >= MIN_PASSWORD_LENGTH
    ensures r.Some? ==> r.value == UserResetPassword(token, newPassword)
  {
    if |newPassword| >= MIN_PASSWORD_LENGTH then Some(UserResetPassword(token, newPassword)) else None
  }

  /** The refresh endpoint's answer; `tokenType` is "bearer" unless given. */
  datatype Token = Token(accessToken: Jwt, refreshToken: Jwt, tokenType: string := "bearer")

  lemma TokenTypeDefault(a: Jwt, r: Jwt)
    ensures Token(a, r).tokenType == "bearer"
  {
  }

  datatype LoginResponse = LoginResponse(accessToken: Jwt, refreshToken: Jwt, tokenType: string, user: User)

  datatype UserResponse = UserResponse(status: string, message: string, data: Option<User> := None)
}
