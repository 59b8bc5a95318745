/**
 * The `users` table. name, email and the password hash are mandatory; the
 * flags have defaults; the three token columns are nullable. The creation
 * and update timestamps are not part of this model.
 */
module UserModel {
  import opened Wrappers
  import opened Security

  datatype User = User(
    id: int,
    name: string,
    email: string,
    hashedPassword: PasswordHash,
    isActive: bool := true,
    isVerified: bool := false,
    verificationToken: Option<string> := None,
    resetPasswordToken: Option<string> := None,
    resetTokenExpires: Option<int> := None)

  /** A user created with only the mandatory columns is active, unverified and holds no token. */
  lemma NewUserDefaults(id: int, name: string, email: string, h: PasswordHash)
    ensures var u := User(id, name, email, h);
      u.isActive && !u.isVerified
      && u.verificationToken == None && u.resetPasswordToken == None && u.resetTokenExpires == None
  {
  }

  /** The `unique=True` constraint on `email`. */
  predicate EmailsUnique(users: seq<User>)
  {
    forall i, j :: 0 <= i < j < |users| ==> users[i].email != users[j].email
  }

  /** No two users hold the same pending verification token. */
  predicate VerificationTokensUnique(users: seq<User>)
  {
    forall i, j :: 0 <= i < j < |users| && users[i].verificationToken.Some? ==>
      users[i].verificationToken != users[j].verificationToken
  }

  /** No two users hold the same pending reset token. */
  predicate ResetTokensUnique(users: seq<User>)
  {
    forall i, j :: 0 <= i < j < |users| && users[i].resetPasswordToken.Some? ==>
      users[i].resetPasswordToken != users[j].resetPasswordToken
  }

  /** The reset token and its expiry are set and cleared together. */
  predicate ResetFieldsPaired(users: seq<User>)
  {
    forall i :: 0 <= i < |users| ==> (users[i].resetPasswordToken.Some? <==> users[i].resetTokenExpires.Some?)
  }
}
