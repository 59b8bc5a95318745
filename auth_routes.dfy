/**
 * The authentication endpoints as operations on the user table. Randomness
 * (bcrypt salts, `secrets.token_urlsafe` tokens) and the clock are
 * parameters; `mailDelivered` stands for whatever the mail server does with a
 * message, which the handlers catch and only log.
 */
module AuthRoutes {
  import opened Wrappers
  import opened Http
  import opened Security
  import opened UserModel
  import opened UserSchema
  import opened Store
  import Numerals

  /** `timedelta(hours=24)`, the lifetime of a password-reset token, in seconds. */
  const RESET_TOKEN_LIFETIME: nat := 24 * 60 * 60

  // ---- mail (best effort) ----

  function VerificationUrl(settings: Settings, token: string): string
  {
    settings.baseUrl + "/api/v1/auth/verify-email?token=" + token
  }

  function ResetUrl(settings: Settings, token: string): string
  {
    settings.frontendUrl + "/reset-password?token=" + token
  }

  /** Handing one mail to the SMTP server: it either goes out or raises. */
  function SendMail(to: string, url: string, mailDelivered: bool): Result<(), string>
  {
    if mailDelivered then Ok(()) else Err("Failed to send email to " + to)
  }

  /** The row `register` inserts: only the mandatory columns and a verification token. */
  function NewUser(id: int, user: UserCreate, hash: PasswordHash, verificationToken: string): (u: User)
    ensures u.id == id && u.name == user.name && u.email == user.email && u.hashedPassword == hash
    ensures u.verificationToken == Some(verificationToken) && !u.isVerified && u.isActive
    ensures u.resetPasswordToken.None? && u.resetTokenExpires.None?
  {
    User(id, user.name, user.email, hash, verificationToken := Some(verificationToken))
  }

  predicate TokenUnused(users: seq<User>, token: string)
  {
    forall k :: 0 <= k < |users| ==> users[k].verificationToken != Some(token)
  }

  predicate ResetTokenUnused(users: seq<User>, token: string)
  {
    forall k :: 0 <= k < |users| ==> users[k].resetPasswordToken != Some(token)
  }

  /** Only the user table may change; the project tables and their counters stay as they were. */
  twostate predicate ProjectTablesUnchanged(db: Database)
    reads db
  {
    && db.projects == old(db.projects) && db.userProjects == old(db.userProjects)
    && db.globalAccesses == old(db.globalAccesses)
    && db.nextProjectId == old(db.nextProjectId) && db.nextUserProjectId == old(db.nextUserProjectId)
    && db.nextGlobalAccessId == old(db.nextGlobalAccessId)
  }

  // ---- register ----

  /**
   * `register`: an email already stored is refused with 400; a password
   * passlib refuses is a 500; otherwise one unverified user with the password
   * hashed and a verification token is added. A failed verification mail does
   * not undo the registration.
   */
  method Register(db: Database, user: UserCreate, salt: string, verificationToken: string,
                  settings: Settings, mailDelivered: bool)
    returns (r: Result<UserResponse, HttpError>)
    requires db.Valid()
    modifies db
    ensures db.Valid() && ProjectTablesUnchanged(db)
    ensures FindUserByEmail(old(db.users), user.email).Some? ==>
              r == Err(HttpError(BAD_REQUEST, "Email already registered"))
              && db.users == old(db.users) && db.nextUserId == old(db.nextUserId)
    ensures FindUserByEmail(old(db.users), user.email).None? && BcryptRefuses(user.password) ==>
              r == Err(SERVER_ERROR) && db.users == old(db.users) && db.nextUserId == old(db.nextUserId)
    ensures FindUserByEmail(old(db.users), user.email).None? && !BcryptRefuses(user.password) ==>
              var u := NewUser(old(db.nextUserId), user, GetPasswordHash(user.password, salt).value, verificationToken);
              && db.users == old(db.users) + [u]
              && db.nextUserId == old(db.nextUserId) + 1
              && r.Ok? && r.value.data == Some(u)
    ensures r.Ok? ==> var u := db.users[|db.users| - 1];
              VerifyPassword(user.password, u.hashedPassword) == Some(true) && !u.isVerified && u.isActive
              && u.verificationToken == Some(verificationToken)
    ensures old(VerificationTokensUnique(db.users)) && old(TokenUnused(db.users, verificationToken))
            ==> VerificationTokensUnique(db.users)
  {
    if FindUserByEmail(db.users, user.email).Some? {
      return Err(HttpError(BAD_REQUEST, "Email already registered"));
    }
    var hash := GetPasswordHash(user.password, salt);
    if hash.None? {
      return Err(SERVER_ERROR);
    }
    var dbUser := NewUser(db.nextUserId, user, hash.value, verificationToken);
    forall k | 0 <= k < |db.users| ensures db.users[k].email != dbUser.email {
      assert !((u: User) => u.email == user.email)(db.users[k]);
    }
    db.AddUser(dbUser);

    var sent := SendMail(user.email, VerificationUrl(settings, verificationToken), mailDelivered);
    // a failed send is only logged: the user stays registered
    r := Ok(UserResponse("success", "User registered successfully. Please check your email for verification.", Some(dbUser)));
  }

  // ---- login and token refresh ----

  /**
   * `login`: an unknown email and a wrong password are the same 401; a
   * password passlib refuses, for a stored email, is a 500; a correct password
   * of an unverified user is a different 401; otherwise an access and a
   * refresh token for the user's id.
   */
  method Login(db: Database, username: string, password: string, now: nat, settings: Settings)
    returns (r: Result<LoginResponse, HttpError>)
    requires db.Valid()
    ensures var i := FindUserByEmail(db.users, username);
            i.None? || VerifyPassword(password, db.users[i.value].hashedPassword) == Some(false)
            ==> r == Err(HttpError(UNAUTHORIZED, "Incorrect email or password"))
    ensures FindUserByEmail(db.users, username).Some? && BcryptRefuses(password) ==> r == Err(SERVER_ERROR)
    ensures var i := FindUserByEmail(db.users, username);
            i.Some? && VerifyPassword(password, db.users[i.value].hashedPassword) == Some(true)
            && !db.users[i.value].isVerified
            ==> r == Err(HttpError(UNAUTHORIZED, "Please verify your email first"))
    ensures r.Ok? <==> exists k :: 0 <= k < |db.users| && db.users[k].email == username
                                   && VerifyPassword(password, db.users[k].hashedPassword) == Some(true)
                                   && db.users[k].isVerified
    ensures r.Ok? ==> r.value.user in db.users && r.value.user.email == username && r.value.tokenType == "bearer"
    ensures r.Ok? ==>
              r.value.accessToken.Signed? && r.value.refreshToken.Signed?
              && !IsRefreshPayload(r.value.accessToken.claims) && IsRefreshPayload(r.value.refreshToken.claims)
    ensures r.Ok? ==> forall later: nat ::
              (VerifyToken(r.value.accessToken, later, settings)
               == if later <= now + settings.accessTokenExpireMinutes * 60
                  then Some(JStr(Numerals.IntToString(r.value.user.id))) else None)
    ensures r.Ok? ==> forall later: nat ::
              (VerifyToken(r.value.refreshToken, later, settings)
               == if later <= now + REFRESH_TOKEN_LIFETIME then Some(JStr(Numerals.IntToString(r.value.user.id))) else None)
  {
    var i := FindUserByEmail(db.users, username);
    if i.None? {
      return Err(HttpError(UNAUTHORIZED, "Incorrect email or password"));
    }
    var verified := VerifyPassword(password, db.users[i.value].hashedPassword);
    if verified.None? {
      return Err(SERVER_ERROR);
    }
    if !verified.value {
      return Err(HttpError(UNAUTHORIZED, "Incorrect email or password"));
    }
    var user := db.users[i.value];
    if !user.isVerified {
      return Err(HttpError(UNAUTHORIZED, "Please verify your email first"));
    }
    var accessToken := CreateAccessToken(JInt(user.id), None, now, settings);
    var refreshToken := CreateRefreshToken(JInt(user.id), None, now, settings);
    r := Ok(LoginResponse(accessToken, refreshToken, "bearer", user));
  }

  /**
   * `refresh_token`: a token that does not decode or carries no usable `sub`
   * is 401, one that is not a refresh token is 400, a `sub` naming no stored
   * user is 401; otherwise a new token pair for the same `sub`.
   */
  method RefreshToken(db: Database, token: Jwt, now: nat, settings: Settings)
    returns (r: Result<Token, HttpError>)
    ensures Decode(token, settings.jwtSecretKey, now).None? ==> r == Err(HttpError(UNAUTHORIZED, "Invalid refresh token"))
    ensures var p := Decode(token, settings.jwtSecretKey, now);
            p.Some? && !IsRefreshPayload(p.value) ==> r == Err(HttpError(BAD_REQUEST, "Invalid token type"))
    ensures var p := Decode(token, settings.jwtSecretKey, now);
            p.Some? && IsRefreshPayload(p.value) && (Get(p.value, "sub").None? || !Truthy(Get(p.value, "sub").value))
            ==> r == Err(HttpError(UNAUTHORIZED, "Invalid refresh token"))
    ensures var p := Decode(token, settings.jwtSecretKey, now);
            p.Some? && IsRefreshPayload(p.value) && Get(p.value, "sub").Some? && Truthy(Get(p.value, "sub").value)
            && PyInt(Get(p.value, "sub").value).None?
            ==> r == Err(SERVER_ERROR)
    ensures var p := Decode(token, settings.jwtSecretKey, now);
            p.Some? && IsRefreshPayload(p.value) && Get(p.value, "sub").Some? && Truthy(Get(p.value, "sub").value)
            && PyInt(Get(p.value, "sub").value).Some? && !HasUser(db.users, PyInt(Get(p.value, "sub").value).value)
            ==> r == Err(HttpError(UNAUTHORIZED, "User not found"))
    ensures r.Ok? <==> var p := Decode(token, settings.jwtSecretKey, now);
            p.Some? && IsRefreshPayload(p.value) && Get(p.value, "sub").Some? && Truthy(Get(p.value, "sub").value)
            && PyInt(Get(p.value, "sub").value).Some? && HasUser(db.users, PyInt(Get(p.value, "sub").value).value)
    ensures r.Ok? ==> token.Signed? && "sub" in token.claims && var sub := token.claims["sub"];
            && r.value.tokenType == "bearer"
            && r.value.accessToken.Signed? && r.value.refreshToken.Signed?
            && !IsRefreshPayload(r.value.accessToken.claims) && IsRefreshPayload(r.value.refreshToken.claims)
            && (forall later: nat :: VerifyToken(r.value.accessToken, later, settings)
                  == if later <= now + settings.accessTokenExpireMinutes * 60 then Some(JStr(PyStr(sub))) else None)
            && (forall later: nat :: VerifyToken(r.value.refreshToken, later, settings)
                  == if later <= now + REFRESH_TOKEN_LIFETIME then Some(JStr(PyStr(sub))) else None)
  {
    var payload := Decode(token, settings.jwtSecretKey, now);
    if payload.None? {
      return Err(HttpError(UNAUTHORIZED, "Invalid refresh token"));
    }
    if Get(payload.value, "type") != Some(JStr("refresh")) {
      return Err(HttpError(BAD_REQUEST, "Invalid token type"));
    }
    var userId := Get(payload.value, "sub");
    if userId.None? || !Truthy(userId.value) {
      return Err(HttpError(UNAUTHORIZED, "Invalid refresh token"));
    }
    // `int(user_id)` sits outside the try block: a ValueError escapes the handler
    var id := PyInt(userId.value);
    if id.None? {
      return Err(SERVER_ERROR);
    }
    if FindUserById(db.users, id.value).None? {
      assert !HasUser(db.users, id.value);
      return Err(HttpError(UNAUTHORIZED, "User not found"));
    }
    var accessToken := CreateAccessToken(userId.value, None, now, settings);
    var refreshToken := CreateRefreshToken(userId.value, None, now, settings);
    r := Ok(Token(accessToken, refreshToken, "bearer"));
  }

  /** An access token never passes the refresh endpoint: its payload has no type claim. */
  method AccessTokenNeverRefreshes(db: Database, subject: JsonValue, expiresDelta: Option<int>,
                                   issuedAt: nat, now: nat, settings: Settings)
    returns (r: Result<Token, HttpError>)
    ensures r.Err?
    ensures now <= issuedAt + ExpiresIn(expiresDelta, settings) ==> r == Err(HttpError(BAD_REQUEST, "Invalid token type"))
    ensures now > issuedAt + ExpiresIn(expiresDelta, settings) ==> r == Err(HttpError(UNAUTHORIZED, "Invalid refresh token"))
  {
    var accessToken := CreateAccessToken(subject, expiresDelta, issuedAt, settings);
    r := RefreshToken(db, accessToken, now, settings);
  }

  /**
   * The refresh token `login` hands out is accepted by `refresh_token` for
   * seven days, and the new access token names the same user; under a
   * negative access lifetime that token is born expired.
   */
  method LoginThenRefresh(db: Database, username: string, password: string, now: nat, later: nat, settings: Settings)
    returns (login: Result<LoginResponse, HttpError>, refreshed: Result<Token, HttpError>)
    requires db.Valid()
    requires later <= now + REFRESH_TOKEN_LIFETIME
    ensures login.Ok? ==> refreshed.Ok?
    ensures login.Ok? && refreshed.Ok? && settings.accessTokenExpireMinutes >= 0 ==>
              VerifyToken(refreshed.value.accessToken, later, settings) == Some(JStr(Numerals.IntToString(login.value.user.id)))
    ensures login.Ok? && refreshed.Ok? && settings.accessTokenExpireMinutes < 0 ==>
              VerifyToken(refreshed.value.accessToken, later, settings) == None
  {
    login := Login(db, username, password, now, settings);
    if login.Err? {
      refreshed := Err(HttpError(UNAUTHORIZED, "Invalid refresh token"));
      return;
    }
    var user := login.value.user;
    var token := login.value.refreshToken;
    assert VerifyToken(token, later, settings) == Some(JStr(Numerals.IntToString(user.id)));
    Numerals.IntRoundTrip(user.id);
    var k :| 0 <= k < |db.users| && db.users[k] == user;
    assert HasUser(db.users, user.id);
    refreshed := RefreshToken(db, token, later, settings);
  }

  // ---- password reset ----

  /**
   * `forgot_password`: an unknown email is 404; otherwise only the reset
   * token and its expiry, 24 hours from now, are written to that user.
   */
  method ForgotPassword(db: Database, email: string, resetToken: string, now: nat,
                        settings: Settings, mailDelivered: bool)
    returns (r: Result<UserResponse, HttpError>)
    requires db.Valid()
    modifies db
    ensures db.Valid() && ProjectTablesUnchanged(db) && db.nextUserId == old(db.nextUserId)
    ensures FindUserByEmail(old(db.users), email).None? ==>
              r == Err(HttpError(NOT_FOUND, "User not found")) && db.users == old(db.users)
    ensures FindUserByEmail(old(db.users), email).Some? ==> var i := FindUserByEmail(old(db.users), email).value;
              && db.users == old(db.users)[i := old(db.users)[i].(resetPasswordToken := Some(resetToken),
                                                                   resetTokenExpires := Some(now + RESET_TOKEN_LIFETIME))]
              && r == Ok(UserResponse("success", "Password reset instructions sent to your email"))
    ensures old(ResetFieldsPaired(db.users)) ==> ResetFieldsPaired(db.users)
    ensures old(ResetTokensUnique(db.users)) && old(ResetTokenUnused(db.users, resetToken)) ==> ResetTokensUnique(db.users)
  {
    var i := FindUserByEmail(db.users, email);
    if i.None? {
      return Err(HttpError(NOT_FOUND, "User not found"));
    }
    var user := db.users[i.value];
    db.UpdateUser(i.value, user.(resetPasswordToken := Some(resetToken), resetTokenExpires := Some(now + RESET_TOKEN_LIFETIME)));
    var sent := SendMail(email, ResetUrl(settings, resetToken), mailDelivered);
    r := Ok(UserResponse("success", "Password reset instructions sent to your email"));
  }

  /**
   * `reset_password`: the first user holding the token gets the new password
   * hash and loses both the token and its expiry, provided `now` has not
   * passed the expiry. A holder without an expiry makes `is_token_expired`
   * compare a time with `None`, which raises; so does a new password bcrypt
   * refuses.
   */
  method ResetPassword(db: Database, resetData: UserResetPassword, salt: string, now: nat)
    returns (r: Result<UserResponse, HttpError>)
    requires db.Valid()
    modifies db
    ensures db.Valid() && ProjectTablesUnchanged(db) && db.nextUserId == old(db.nextUserId)
    ensures var i := FindUserByResetToken(old(db.users), resetData.token);
            i.None? || (old(db.users)[i.value].resetTokenExpires.Some? && IsTokenExpired(old(db.users)[i.value].resetTokenExpires.value, now))
            ==> r == Err(HttpError(BAD_REQUEST, "Invalid or expired reset token")) && db.users == old(db.users)
    ensures var i := FindUserByResetToken(old(db.users), resetData.token);
            i.Some? && old(db.users)[i.value].resetTokenExpires.None?
            ==> r == Err(SERVER_ERROR) && db.users == old(db.users)
    ensures var i := FindUserByResetToken(old(db.users), resetData.token);
            i.Some? && old(db.users)[i.value].resetTokenExpires.Some?
            && !IsTokenExpired(old(db.users)[i.value].resetTokenExpires.value, now) && BcryptRefuses(resetData.newPassword)
            ==> r == Err(SERVER_ERROR) && db.users == old(db.users)
    ensures r.Ok? <==> && !BcryptRefuses(resetData.newPassword)
                       && exists k :: 0 <= k < |old(db.users)| && old(db.users)[k].resetPasswordToken == Some(resetData.token)
                                   && old(db.users)[k].resetTokenExpires.Some? && now <= old(db.users)[k].resetTokenExpires.value
                                   && old(FindUserByResetToken(db.users, resetData.token)) == Some(k)
    ensures r.Ok? ==> var i := FindUserByResetToken(old(db.users), resetData.token).value;
              && db.users == old(db.users)[i := old(db.users)[i].(hashedPassword := GetPasswordHash(resetData.newPassword, salt).value,
                                                                   resetPasswordToken := None, resetTokenExpires := None)]
              && VerifyPassword(resetData.newPassword, db.users[i].hashedPassword) == Some(true)
              && r.value == UserResponse("success", "Password reset successfully")
    ensures old(ResetFieldsPaired(db.users)) ==> ResetFieldsPaired(db.users)
    ensures old(ResetTokensUnique(db.users)) ==> ResetTokensUnique(db.users)
    ensures r.Ok? && old(ResetTokensUnique(db.users)) ==> ResetTokenUnused(db.users, resetData.token)
  {
    var i := FindUserByResetToken(db.users, resetData.token);
    if i.None? {
      return Err(HttpError(BAD_REQUEST, "Invalid or expired reset token"));
    }
    var user := db.users[i.value];
    if user.resetTokenExpires.None? {
      return Err(SERVER_ERROR);
    }
    if IsTokenExpired(user.resetTokenExpires.value, now) {
      return Err(HttpError(BAD_REQUEST, "Invalid or expired reset token"));
    }
    var hash := GetPasswordHash(resetData.newPassword, salt);
    if hash.None? {
      return Err(SERVER_ERROR);
    }
    db.UpdateUser(i.value, user.(hashedPassword := hash.value, resetPasswordToken := None, resetTokenExpires := None));
    r := Ok(UserResponse("success", "Password reset successfully"));
  }

  /** A reset token works once: replaying it right after a successful reset is refused. */
  method ResetTokenIsOneShot(db: Database, resetData: UserResetPassword, again: string, salt: string, now: nat, later: nat)
    returns (first: Result<UserResponse, HttpError>, second: Result<UserResponse, HttpError>)
    requires db.Valid() && ResetTokensUnique(db.users)
    modifies db
    ensures first.Ok? ==> second == Err(HttpError(BAD_REQUEST, "Invalid or expired reset token"))
  {
    first := ResetPassword(db, resetData, salt, now);
    second := ResetPassword(db, UserResetPassword(resetData.token, again), salt, later);
  }

  // ---- signed-in account changes ----

  /**
   * `change_password` for the signed-in user: the current password must
   * verify; then only the hash changes. A password passlib refuses, current or
   * new, is a 500. The old password keeps working exactly when it agrees
   * with the new one on the characters bcrypt reads.
   */
  method ChangePassword(db: Database, currentUserId: int, passwordData: UserChangePassword, salt: string)
    returns (r: Result<UserResponse, HttpError>)
    requires db.Valid() && HasUser(db.users, currentUserId)
    modifies db
    ensures db.Valid() && ProjectTablesUnchanged(db) && db.nextUserId == old(db.nextUserId)
    ensures FindUserById(old(db.users), currentUserId).Some?
    ensures var i := FindUserById(old(db.users), currentUserId).value;
            VerifyPassword(passwordData.currentPassword, old(db.users)[i].hashedPassword) == Some(false)
            ==> r == Err(HttpError(BAD_REQUEST, "Incorrect current password")) && db.users == old(db.users)
    ensures BcryptRefuses(passwordData.currentPassword) ==> r == Err(SERVER_ERROR) && db.users == old(db.users)
    ensures var i := FindUserById(old(db.users), currentUserId).value;
            VerifyPassword(passwordData.currentPassword, old(db.users)[i].hashedPassword) == Some(true)
            && BcryptRefuses(passwordData.newPassword)
            ==> r == Err(SERVER_ERROR) && db.users == old(db.users)
    ensures var i := FindUserById(old(db.users), currentUserId).value;
            VerifyPassword(passwordData.currentPassword, old(db.users)[i].hashedPassword) == Some(true)
            && !BcryptRefuses(passwordData.newPassword)
            ==> && db.users == old(db.users)[i := old(db.users)[i].(hashedPassword := GetPasswordHash(passwordData.newPassword, salt).value)]
                && r == Ok(UserResponse("success", "Password changed successfully"))
    ensures r.Ok? ==> var i := FindUserById(old(db.users), currentUserId).value;
              && VerifyPassword(passwordData.newPassword, db.users[i].hashedPassword) == Some(true)
              && (BcryptInput(passwordData.currentPassword) != BcryptInput(passwordData.newPassword) ==>
                    VerifyPassword(passwordData.currentPassword, db.users[i].hashedPassword) == Some(false))
              && (BcryptInput(passwordData.currentPassword) == BcryptInput(passwordData.newPassword) ==>
                    VerifyPassword(passwordData.currentPassword, db.users[i].hashedPassword) == Some(true))
  {
    FindUserByIdFinds(db.users, currentUserId);
    var i := FindUserById(db.users, currentUserId);
    var currentUser := db.users[i.value];
    var verified := VerifyPassword(passwordData.currentPassword, currentUser.hashedPassword);
    if verified.None? {
      return Err(SERVER_ERROR);
    }
    if !verified.value {
      return Err(HttpError(BAD_REQUEST, "Incorrect current password"));
    }
    var hash := GetPasswordHash(passwordData.newPassword, salt);
    if hash.None? {
      return Err(SERVER_ERROR);
    }
    db.UpdateUser(i.value, currentUser.(hashedPassword := hash.value));
    r := Ok(UserResponse("success", "Password changed successfully"));
  }

  /** `.filter(email == new_email, id != current_user.id).first()`: a user other than `id` holding `email`. */
  function FindOtherUserByEmail(users: seq<User>, email: string, id: int): (r: Option<nat>)
    ensures r.Some? ==> r.value < |users| && users[r.value].email == email && users[r.value].id != id
    ensures r.None? <==> forall k :: 0 <= k < |users| && users[k].id != id ==> users[k].email != email
  {
    First(users, (u: User) => u.email == email && u.id != id)
  }

  /**
   * `change_email` for the signed-in user: the stated current email must be
   * the stored one, the password must verify (one passlib refuses is a 500),
   * and no other user may hold the new email; then the email changes,
   * verification is reset and a new verification token is issued.
   */
  method ChangeEmail(db: Database, currentUserId: int, emailData: UserChangeEmail, verificationToken: string,
                     settings: Settings, mailDelivered: bool)
    returns (r: Result<UserResponse, HttpError>)
    requires db.Valid() && HasUser(db.users, currentUserId)
    modifies db
    ensures db.Valid() && ProjectTablesUnchanged(db) && db.nextUserId == old(db.nextUserId)
    ensures FindUserById(old(db.users), currentUserId).Some?
    ensures var u := old(db.users)[FindUserById(old(db.users), currentUserId).value];
            emailData.currentEmail != u.email
            ==> r == Err(HttpError(BAD_REQUEST, "Current email is incorrect")) && db.users == old(db.users)
    ensures var u := old(db.users)[FindUserById(old(db.users), currentUserId).value];
            emailData.currentEmail == u.email && VerifyPassword(emailData.currentPassword, u.hashedPassword) == Some(false)
            ==> r == Err(HttpError(BAD_REQUEST, "Incorrect password")) && db.users == old(db.users)
    ensures var u := old(db.users)[FindUserById(old(db.users), currentUserId).value];
            emailData.currentEmail == u.email && BcryptRefuses(emailData.currentPassword)
            ==> r == Err(SERVER_ERROR) && db.users == old(db.users)
    ensures var u := old(db.users)[FindUserById(old(db.users), currentUserId).value];
            emailData.currentEmail == u.email && VerifyPassword(emailData.currentPassword, u.hashedPassword) == Some(true)
            && (exists k :: 0 <= k < |old(db.users)| && old(db.users)[k].email == emailData.newEmail && old(db.users)[k].id != currentUserId)
            ==> r == Err(HttpError(BAD_REQUEST, "Email already registered")) && db.users == old(db.users)
    ensures r.Ok? <==> var u := old(db.users)[FindUserById(old(db.users), currentUserId).value];
            && emailData.currentEmail == u.email && VerifyPassword(emailData.currentPassword, u.hashedPassword) == Some(true)
            && (forall k :: 0 <= k < |old(db.users)| && old(db.users)[k].id != currentUserId ==> old(db.users)[k].email != emailData.newEmail)
    ensures r.Ok? ==> var i := FindUserById(old(db.users), currentUserId).value;
              var updated := old(db.users)[i].(email := emailData.newEmail, isVerified := false,
                                               verificationToken := Some(verificationToken));
              && db.users == old(db.users)[i := updated]
              && r.value == UserResponse("success", "Email updated successfully. Please check your new email for verification.", Some(updated))
    ensures old(VerificationTokensUnique(db.users)) && old(TokenUnused(db.users, verificationToken))
            ==> VerificationTokensUnique(db.users)
  {
    FindUserByIdFinds(db.users, currentUserId);
    var i := FindUserById(db.users, currentUserId);
    var currentUser := db.users[i.value];
    if emailData.currentEmail != currentUser.email {
      return Err(HttpError(BAD_REQUEST, "Current email is incorrect"));
    }
    var verified := VerifyPassword(emailData.currentPassword, currentUser.hashedPassword);
    if verified.None? {
      return Err(SERVER_ERROR);
    }
    if !verified.value {
      return Err(HttpError(BAD_REQUEST, "Incorrect password"));
    }
    var other := FindOtherUserByEmail(db.users, emailData.newEmail, currentUserId);
    if other.Some? {
      return Err(HttpError(BAD_REQUEST, "Email already registered"));
    }
    var updated := currentUser.(email := emailData.newEmail, isVerified := false, verificationToken := Some(verificationToken));
    forall k | 0 <= k < |db.users| && k != i.value ensures db.users[k].email != updated.email {
      assert db.users[k].id != currentUserId;
    }
    db.UpdateUser(i.value, updated);
    var sent := SendMail(emailData.newEmail, VerificationUrl(settings, verificationToken), mailDelivered);
    r := Ok(UserResponse("success", "Email updated successfully. Please check your new email for verification.", Some(updated)));
  }

  // ---- email verification ----

  /** The HTML page `verify_email` answers with, reduced to its status code and title. */
  datatype VerificationPage = VerificationPage(statusCode: nat, title: string)

  const VERIFICATION_FAILED := VerificationPage(BAD_REQUEST, "Email Verification Failed")
  const VERIFICATION_SUCCEEDED := VerificationPage(200, "Email Verification Success")

  /**
   * `verify_email`: a token nobody holds gives the 400 page and changes
   * nothing; otherwise its first holder becomes verified and the token is
   * cleared.
   */
  method VerifyEmail(db: Database, token: string) returns (page: VerificationPage)
    requires db.Valid()
    modifies db
    ensures db.Valid() && ProjectTablesUnchanged(db) && db.nextUserId == old(db.nextUserId)
    ensures FindUserByVerificationToken(old(db.users), token).None? <==> page == VERIFICATION_FAILED
    ensures page == VERIFICATION_FAILED || page == VERIFICATION_SUCCEEDED
    ensures page == VERIFICATION_FAILED ==> db.users == old(db.users)
    ensures page == VERIFICATION_SUCCEEDED ==> var i := FindUserByVerificationToken(old(db.users), token).value;
              db.users == old(db.users)[i := old(db.users)[i].(isVerified := true, verificationToken := None)]
    ensures old(VerificationTokensUnique(db.users)) ==> VerificationTokensUnique(db.users)
    ensures page == VERIFICATION_SUCCEEDED && old(VerificationTokensUnique(db.users)) ==> TokenUnused(db.users, token)
  {
    var i := FindUserByVerificationToken(db.users, token);
    if i.None? {
      return VERIFICATION_FAILED;
    }
    var user := db.users[i.value];
    db.UpdateUser(i.value, user.(isVerified := true, verificationToken := None));
    page := VERIFICATION_SUCCEEDED;
  }

  /** A verification link works once: following it again shows the failure page. */
  method VerificationTokenIsOneShot(db: Database, token: string)
    returns (first: VerificationPage, second: VerificationPage)
    requires db.Valid() && VerificationTokensUnique(db.users)
    modifies db
    ensures first == VERIFICATION_SUCCEEDED ==> second == VERIFICATION_FAILED
  {
    first := VerifyEmail(db, token);
    second := VerifyEmail(db, token);
  }
}
