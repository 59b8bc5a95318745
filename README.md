# moskal-auth, modelled in Dafny

moskal-auth is a FastAPI service with two groups of endpoints. The first
handles accounts: registration with email verification, login, token refresh,
forgotten and changed passwords, and email change. The second handles
projects: onboarding creates a batch of projects, owners grant other users
access to one project or to all their projects, and a listing shows what a
user owns and may reach. This project models those handlers over an in-memory
store, together with the token claims and the enum and request shapes they
use, and proves what each handler promises.

Layout, one module per file:

- `wrappers.dfy`: `Option`, `Result` and the HTTP error (`Http`).
- `numerals.dfy`: Python's `str(int)` and `int(str)`, which a user id passes through on its way into and out of a token's `sub` claim.
- `security.dfy`: password hashing, token payloads, `verify_token` and `is_token_expired`.
- `project_model.dfy`, `user_model.dfy`: the table rows and the enums.
- `project_schema.dfy`, `user_schema.dfy`: request and response shapes and their validators.
- `store.dfy`: class `Database`. It holds the four tables as `seq` fields with their auto-increment counters. `Valid()` holds the primary keys, foreign keys and the unique email. It also defines the `.filter(...).first()` and `.all()` queries and the row insert and update with commit.
- `project_routes.dfy`, `auth_routes.dfy`: the handlers, as methods that change `db`.

Each handler receives its inputs as parameters:

- the authenticated caller (`currentUserId`, which must be a stored user);
- the bcrypt salt;
- the values `secrets.token_urlsafe` would have drawn;
- the current time in seconds;
- whether the mail server accepted the message.

An HTTP error the handler raises is `Err(HttpError(status, detail))`. An
exception the handler does not catch is `Err` with status 500.

Three behaviours of the code are modelled as written:

- `list_projects` neither de-duplicates nor ranks its entries. A project reachable both through an individual grant and through a global grant from its owner is listed at least once per path, as `ListedOncePerPath` proves.
- Grants name their grantee by user id.
- Onboarding checks the requested names only against stored projects. A name repeated within one request is created twice; uniqueness of (owner, name) is kept exactly when the request has no repeats.

No unique constraint on (owner, name), (project, user) or (owner, user)
appears in the schema. Those three kinds of uniqueness are therefore separate
predicates, and each handler that could break one states that it preserves
it.

## Model

| member | source | states |
|---|---|---|
| ProjectModel.LanguageValue | app/models/project.py:7-9 | a Language's value is "indonesia" or "english" |
| ProjectModel.GlobalRoleValue | app/models/project.py:11-14 | a GlobalRole's value is "standard", "observer" or "administrator" |
| ProjectModel.ProjectRoleValue | app/models/project.py:16-18 | a ProjectRole's value is "full_access" or "preview_only" |
| ProjectModel.ValuesIdentifyMembers | app/models/project.py:7-18 | within each enum, equal string values mean equal members |
| ProjectSchema.ParseLanguage | app/schemas/project.py:6-8 | parsing succeeds iff the string is one of the two values, and gives back the member with that value |
| ProjectSchema.ParseGlobalRole | app/schemas/project.py:10-13 | parsing succeeds iff the string is one of the three values, and gives back the member with that value |
| ProjectSchema.ParseProjectRole | app/schemas/project.py:15-17 | parsing succeeds iff the string is one of the two values, and gives back the member with that value |
| ProjectSchema.EnumRoundTrips | app/schemas/project.py:6-17 | member to string to member is the identity for all three enums |
| ProjectSchema.GlobalRoleIsNotProjectRole | app/schemas/project.py:55-58 | no global role string, "administrator" included, parses as a project role |
| ProjectSchema.ParseOnboardingRequest | app/schemas/project.py:20-22 | a request is accepted iff its language parses; it keeps the names as given, with one language for the whole batch |
| ProjectSchema.ParseGlobalAccessCreate | app/schemas/project.py:42-44 | accepted iff the role is a GlobalRole value; keeps the user id |
| ProjectSchema.ParseProjectAccessCreate | app/schemas/project.py:55-58 | accepted iff the role is a ProjectRole value; keeps the user id and the project id |
| ProjectSchema.AccessTypeDefault | app/schemas/project.py:72 | an access entry built without a type is "individual" |
| UserModel.NewUserDefaults | app/models/user.py:14-18 | a user built from the mandatory columns is active, unverified, and holds no verification token, reset token or expiry |
| UserSchema.ParseUserCreate | app/schemas/user.py:8-10 | registration input is accepted iff the name has at least 1 character and the password at least 8 |
| UserSchema.ParseUserChangePassword | app/schemas/user.py:15-17 | accepted iff the new password has at least 8 characters; the current password is unconstrained |
| UserSchema.ParseUserResetPassword | app/schemas/user.py:22-24 | accepted iff the new password has at least 8 characters |
| UserSchema.TokenTypeDefault | app/schemas/user.py:37 | a token pair built without a type is "bearer" |
| Security.BcryptInput | app/core/security.py:13-14 | bcrypt reads a password's first 72 characters, all of it when it is shorter |
| Security.GetPasswordHash | app/core/security.py:13-14 | hashing fails iff passlib refuses the password: it holds a NUL character or is longer than 4096 characters; otherwise the hash verifies against exactly the passwords passlib accepts that agree with this one on their first 72 characters, this one included |
| Security.VerifyPassword | app/core/security.py:10-11 | verification fails (raises) iff passlib refuses the candidate: it holds a NUL character or is longer than 4096 characters |
| Security.VerifyIgnoresTail | app/core/security.py:10-14 | characters after the 72nd never change whether a password verifies, as long as passlib accepts the longer password |
| Security.Decode | app/core/security.py:39 | a token decodes iff it is signed with the given key, its exp, when present, reads with `int()` as a time not in the past, and its sub, when present, is a string; it then gives back the claims |
| Security.ExpiresIn | app/core/security.py:17-20 | the lifetime is the delta when it is truthy, else the configured minutes in seconds, 1800 under the default 30 minutes |
| Security.RefreshLifetime | app/core/security.py:33-34 | the refresh lifetime is the delta when truthy, else 604800 seconds; it is never zero, so `create_token` uses it unchanged |
| Security.VerifyToken | app/core/security.py:37-42 | a result is returned iff the token is signed with the configured key, its exp has not passed, and it has a sub that is a string; the result is that sub |
| Security.IsTokenExpired | app/core/security.py:50-51 | a time is not expired at its own instant and is expired one second later |
| Security.DecodeReadsStringExp | app/core/security.py:39 | a signed token whose exp is a string of digits decodes exactly up to the number those digits spell |
| Security.DecodeAgreesWithExpiry | app/core/security.py:50-51 | a token with a string sub decodes exactly when `is_token_expired` of its exp is false, and a token is still valid at its own expiry second |
| Security.DecodeNeedsKey | app/core/security.py:39 | a token signed with one key never decodes under another |
| Security.CreateToken | app/core/security.py:16-27 | the payload is exp and the string form of sub, plus a "refresh" type claim iff the token type is "refresh"; exp is now plus the delta when the delta is truthy, else plus the configured minutes; the token verifies to its sub up to that instant and not after |
| Security.CreateAccessToken | app/core/security.py:29-30 | like CreateToken, and the payload has no type claim, so it is never a refresh payload |
| Security.CreateRefreshToken | app/core/security.py:32-35 | a refresh payload whose lifetime is the delta when truthy, else seven days |
| Numerals.IntToString | app/core/security.py:22 | `str(i)` starts with a minus sign iff i is negative, and the rest is a non-empty run of decimal digits |
| Numerals.NatToString | app/core/security.py:22 | `str(n)` of a natural number is a non-empty string of decimal digits without a leading zero, and starts with "0" only for 0 |
| Numerals.ParseDigits | app/routes/auth.py:108 | reading digits succeeds iff the string is a non-empty run of decimal digits |
| Numerals.ParseInt | app/routes/auth.py:108 | `int(s)` succeeds iff s is a run of one or more decimal digits, with or without a leading sign; a plain or "+" run reads as its decimal value, a "-" run as its negation |
| Numerals.NatRoundTrip | app/core/security.py:22 | the digits `str` writes for n read back as n |
| Numerals.NegativeRoundTrip | app/core/security.py:22 | `int(str(i)) == i` for a negative i |
| Numerals.IntRoundTrip | app/routes/auth.py:108 | `int(str(i)) == i` for every integer, so a user id survives the trip through a token's sub claim |
| Store.First | app/routes/auth.py:30 | `.first()`: the index of the first row matching the filter, or none when no row matches |
| Store.Filter | app/routes/project.py:134-136 | `.all()`: the matching rows, each one taken from the table, and every matching row included |
| Store.FilterCounts | app/routes/project.py:134-136 | a matching row occurs in the result as often as in the table, any other row never |
| Store.FilterAppend | app/routes/project.py:134-136 | filtering keeps table order: it distributes over concatenation |
| Store.Database.AddUser | app/routes/auth.py:43-44 | inserting a user with a fresh id and an email no row holds keeps every constraint; only the user table and its counter change |
| Store.Database.AddProject | app/routes/project.py:49-52 | inserting a project with a fresh id and a stored owner keeps every constraint; only the project table and its counter change |
| Store.Database.UpdateUser | app/routes/auth.py:144-146 | rewriting one user row with the same id and an email no other row holds keeps every constraint; nothing else changes |
| ProjectRoutes.OwnedBy | app/routes/project.py:134-136 | a project is listed iff it is stored and owned by the viewer |
| ProjectRoutes.GrantsTo | app/routes/project.py:139-141 | an individual grant is listed iff it is stored and held by the viewer |
| ProjectRoutes.GlobalGrantsTo | app/routes/project.py:144-146 | a global grant is listed iff it is stored and received by the viewer |
| ProjectRoutes.OwnedByCounts | app/routes/project.py:134-136 | each of the viewer's projects is listed as often as the table holds it, no other project at all |
| ProjectRoutes.GrantsToCounts | app/routes/project.py:139-141 | each grant held by the viewer is listed as often as the table holds it, no other grant at all |
| ProjectRoutes.GlobalGrantsToCounts | app/routes/project.py:144-146 | each global grant received by the viewer is listed as often as the table holds it, no other grant at all |
| ProjectRoutes.ProjectById | app/routes/project.py:154 | the project a grant points at is a stored project with that id |
| ProjectRoutes.MapGlobalRole | app/routes/project.py:168 | the result is full access iff the role is administrator, and preview only iff it is standard or observer |
| ProjectRoutes.IndividualInfosLength | app/routes/project.py:151-158 | one individual entry per grant |
| ProjectRoutes.IndividualInfosMembership | app/routes/project.py:151-158 | an entry is listed iff it is the project and stored role of one of the grants, typed "individual" |
| ProjectRoutes.RoleInfosLength | app/routes/project.py:166-176 | one entry per owner project |
| ProjectRoutes.RoleInfosMembership | app/routes/project.py:166-176 | an entry is listed iff it is one of the owner's projects with the mapped role, typed "global" |
| ProjectRoutes.GlobalInfosLength | app/routes/project.py:161-176 | the global part has, per global grant, as many entries as the grant's owner has projects |
| ProjectRoutes.GlobalInfosMembership | app/routes/project.py:161-176 | an entry is listed iff it is a project of some grant's owner carrying that grant's mapped role, typed "global" |
| ProjectRoutes.AccessibleProjectsLength | app/routes/project.py:148-176 | the accessible list has #individual grants plus the sum over global grants of #owner projects entries |
| ProjectRoutes.AccessibleProjectsMembership | app/routes/project.py:148-176 | an entry is listed iff it comes from one of the viewer's individual grants or from a project of an owner who granted the viewer global access |
| ProjectRoutes.AccessibleProjectsCharacterised | app/routes/project.py:148-176 | the same characterisation, for all entries at once |
| ProjectRoutes.ListedOncePerPath | app/routes/project.py:148-176 | a project reachable through an individual and a global grant appears at least twice: at two distinct positions, once with each role |
| ProjectRoutes.AppendOwnedKeepsNamesUnique | app/routes/project.py:31-50 | adding projects whose names are new for their owner keeps (owner, name) unique iff the new names are pairwise distinct |
| ProjectRoutes.ValidGrantsResolve | app/models/project.py:39 | in a valid store every individual grant points at a stored project |
| ProjectRoutes.CreateOnboarding | app/routes/project.py:24-56 | fails with 400 iff some requested name is already the caller's, naming the first such name and leaving the table unchanged; otherwise it adds one project per name in request order (caller-owned, request language, consecutive ids) and returns them; other tables never change; (owner, name) stays unique iff the request has no repeated name |
| ProjectRoutes.CreateGlobalAccess | app/routes/project.py:58-87 | unknown grantee gives 404, an existing (caller, grantee) grant gives 400, otherwise exactly one grant(caller, grantee, role) is appended; nothing else changes; (owner, user) uniqueness is preserved |
| ProjectRoutes.CreateProjectAccess | app/routes/project.py:89-126 | first a project missing or not owned by the caller gives 404, then an unknown user 404, then an existing (project, user) grant 400; otherwise one grant is appended, so a non-owner never creates one; (project, user) uniqueness is preserved |
| ProjectRoutes.CollectIndividualAccess | app/routes/project.py:151-158 | the loop builds exactly the individual entries of the given grants |
| ProjectRoutes.CollectOwnerProjects | app/routes/project.py:162-176 | the inner loop appends exactly the owner's projects with the mapped role |
| ProjectRoutes.CollectGlobalAccess | app/routes/project.py:161-176 | the outer loop builds exactly the global entries of the given grants |
| ProjectRoutes.ListProjects | app/routes/project.py:128-181 | read-only; the owned list is exactly the viewer's projects and the accessible list is the individual entries followed by the global ones, with the length and membership stated above |
| AuthRoutes.NewUser | app/routes/auth.py:37-42 | the inserted row carries the given id, name, email, hash and verification token, and is active, unverified and without a reset token |
| AuthRoutes.Register | app/routes/auth.py:27-59 | a stored email gives 400 and no change; a password passlib refuses gives 500 and no change; otherwise one unverified, active user is appended, holding the password's hash and the new verification token, and is returned even when the mail fails; the store stays valid, so emails stay unique; verification tokens stay unique when the new one is unused |
| AuthRoutes.Login | app/routes/auth.py:61-84 | an unknown email and a wrong password give the same 401; a password passlib refuses, for a stored email, gives 500; an unverified user with the right password gets a different 401; success iff a stored user has this email, the password verifies and the user is verified; the tokens are an access and a refresh token that verify to the user's id up to their expiry and not after |
| AuthRoutes.RefreshToken | app/routes/auth.py:86-119 | a token that does not decode gives 401; a non-refresh payload 400; a missing or empty sub 401; a sub `int` cannot read 500; a sub naming no user 401; otherwise a new pair for the same sub, each verifying up to its expiry and not after; success iff all checks pass |
| AuthRoutes.AccessTokenNeverRefreshes | app/core/security.py:29-30 | an access token always fails refresh: 400 "Invalid token type" while it is valid, 401 once expired |
| AuthRoutes.LoginThenRefresh | app/routes/auth.py:79-119 | a successful login's refresh token is accepted by the refresh endpoint for seven days, and the new access token names the same user, or is born expired when the configured access lifetime is negative |
| AuthRoutes.ForgotPassword | app/routes/auth.py:133-158 | an unknown email gives 404 and no change; otherwise only that user's reset token and expiry (now + 24 h) change; the token and its expiry stay paired; reset tokens stay unique when the new one is unused |
| AuthRoutes.ResetPassword | app/routes/auth.py:160-181 | no holder or an expired token gives 400 and no change; a holder without an expiry gives 500, and so does a new password passlib refuses; success iff the first holder's expiry is at or after now and bcrypt accepts the new password; then only the hash, token and expiry of that user change, and the new password verifies; afterwards no user holds the token |
| AuthRoutes.ResetTokenIsOneShot | app/routes/auth.py:172-176 | replaying a reset token after it succeeded gives 400 |
| AuthRoutes.ChangePassword | app/routes/auth.py:183-201 | a current password that does not verify gives 400 and no change; a current or new password passlib refuses gives 500 and no change; otherwise only the caller's hash changes, the new password verifies, and the old one keeps verifying iff it agrees with the new one on the first 72 characters |
| AuthRoutes.FindOtherUserByEmail | app/routes/auth.py:371-374 | a user other than the caller that holds the email, and none exactly when no other user holds it |
| AuthRoutes.ChangeEmail | app/routes/auth.py:350-397 | the checks run in order: wrong current email, then wrong password (500 if passlib refuses it), then the new email held by another user, each 400 with no change; success iff all pass; then only the caller's email, verified flag (false) and verification token (the new one) change; emails stay unique |
| AuthRoutes.VerifyEmail | app/routes/auth.py:205-281 | a token nobody holds gives the 400 page and no change; otherwise the holder becomes verified and loses the token, giving the 200 page; afterwards no user holds the token |
| AuthRoutes.VerificationTokenIsOneShot | app/routes/auth.py:279-280 | following a verification link again after it succeeded gives the failure page |

## Left out

- Timestamps. `created_at`, `updated_at` and `db.refresh` exist only to fill these and are not modelled.
- Query order. `.all()` and `.first()` follow table order, the order in which rows were inserted. SQL gives no such guarantee without `ORDER BY`.
- Transactions. Each handler commits once at its end, so every modelled change is atomic. Concurrent requests and rollbacks are not modelled.
- Hashing. bcrypt is modelled by a datatype recording the salt and the first 72 characters of the password. The cipher itself, the cost factor and the hash's text format are not modelled. What is modelled: passlib's refusal of a NUL character and of a secret over `MAX_PASSWORD_SIZE` (4096), and bcrypt's silent truncation to 72.
- Security.BcryptInput, Security.GetPasswordHash, Security.VerifyPassword: password length is counted in characters. passlib encodes the password as UTF-8 and applies both limits to the bytes: bcrypt truncates at 72 bytes, and `MAX_PASSWORD_SIZE` refuses more than 4096. So a password with non-ASCII characters is cut earlier in the source than in the model, and one of 1400 three-byte characters (4200 bytes) is refused in the source but hashed here.
- JWT. Signing, the algorithm and the encoding are modelled by a datatype that records the claims and the key. Decoding checks the key, `exp` (read with `int()`, not in the past) and `sub` (a string). python-jose's other claim checks (`nbf`, `iat`, `aud`, `jti`) are not modelled, and neither is the datetime encoding of `exp`.
- Randomness and time. `secrets.token_urlsafe` and `datetime.utcnow` are parameters. Uniqueness of a drawn token is an assumption of the post-conditions about token uniqueness, not a guarantee.
- Email. SMTP, the mail templates and the HTML verification pages are not modelled. A message is reduced to its URL and whether delivery succeeded, and a page to its status code and title.
- `get_current_user` is not part of this model. app/routes/auth.py:11 and app/routes/project.py:5 import it from app/core/security.py, which does not define it. The caller therefore arrives as a stored user id, and `GET /auth/me`, which only echoes that user, is omitted.
- Configuration. The settings are a parameter. The default `ACCESS_TOKEN_EXPIRE_MINUTES` of 30 (app/core/config.py:42) appears only in the contract of `ExpiresIn`. The configured minutes are any integer, as the source reads them; a negative value makes every access token expire at once.
- Column collation and widths. Every string comparison in the model is exact, over strings of any length. The tables are created on MySQL, whose default collation compares case-insensitively. So an email, project name or token that differs from a stored one only in letter case matches it in the source (registering "Alpha@x.com" after "alpha@x.com" gives 400 there), but not here. The `String(255)` limits on the name, email, hash and token columns (app/models/user.py:11-17, app/models/project.py:24) are not modelled, so a longer value is stored here where the database would refuse or truncate it.
- Response serialisation. Apart from the shapes in the schema files, `response_model` filtering is not modelled.
- The keyword-enrichment utility, the seeding script and the FastAPI wiring are not part of this model.
- `EmailStr` validation. Emails are opaque strings.
- Numerals.ParseInt: weaker than Python's `int`, which also accepts surrounding whitespace, underscores between digits and non-ASCII digits. A `sub` claim such as " 5" reads as 5 in Python but is refused here, so the refresh endpoint answers 500 where the source would look up user 5. The same reading applies to a string `exp` claim in `Security.Decode`. Subjects this service writes itself are plain `str(int)` output, which both read alike (`IntRoundTrip`).
