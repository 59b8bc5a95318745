/**
 * Password hashing and token issuance. bcrypt and JWT signing are library
 * code; they are modelled symbolically: a hash remembers the salt and the
 * part of the password bcrypt reads, and only `VerifyPassword` looks inside it; a signed token
 * carries its claims and the key that signed it, and only `Decode` opens it.
 * Times are whole seconds since the epoch.
 */
module Security {
  import opened Wrappers
  import Numerals

  // ---- password hashing ----

  /** bcrypt reads at most this many characters of a password and silently drops the rest. */
  const BCRYPT_MAX_PASSWORD_LENGTH: nat := 72

  /** The part of a password bcrypt reads: its first 72 characters. */
  function BcryptInput(password: string): (s: string)
    ensures |s| == if |password| <= BCRYPT_MAX_PASSWORD_LENGTH then |password| else BCRYPT_MAX_PASSWORD_LENGTH
    ensures s <= password
  {
    if |password| <= BCRYPT_MAX_PASSWORD_LENGTH then password else password[..BCRYPT_MAX_PASSWORD_LENGTH]
  }

  /** passlib's `MAX_PASSWORD_SIZE`: a longer secret is refused before bcrypt sees it. */
  const PASSLIB_MAX_PASSWORD_SIZE: nat := 4096

  /**
   * passlib raises `ValueError` for a password holding a NUL character
   * (bcrypt's refusal) or longer than `MAX_PASSWORD_SIZE` (`PasswordSizeError`,
   * raised by both `hash` and `verify`).
   */
  predicate BcryptRefuses(password: string)
  {
    '\0' in password || |password| > PASSLIB_MAX_PASSWORD_SIZE
  }

  /** A bcrypt hash; the salt is the randomness bcrypt draws for each hash. */
  datatype PasswordHash = PasswordHash(salt: string, secret: string)

  /**
   * `get_password_hash`; `None` stands for the error passlib raises. The
   * hash accepts exactly the passwords that agree with this one on the
   * characters bcrypt reads.
   */
  function GetPasswordHash(password: string, salt: string): (h: Option<PasswordHash>)
    ensures h.None? <==> BcryptRefuses(password)
    ensures h.Some? ==> VerifyPassword(password, h.value) == Some(true)
    ensures h.Some? ==> forall other ::
              (VerifyPassword(other, h.value) == Some(true) <==> !BcryptRefuses(other) && BcryptInput(other) == BcryptInput(password))
  {
    if BcryptRefuses(password) then None else Some(PasswordHash(salt, BcryptInput(password)))
  }

  /** `verify_password`; `None` stands for the error passlib raises. */
  function VerifyPassword(plain: string, hashed: PasswordHash): (r: Option<bool>)
    ensures r.None? <==> BcryptRefuses(plain)
  {
    if BcryptRefuses(plain) then None else Some(BcryptInput(plain) == hashed.secret)
  }

  /**
   * Characters after the 72nd do not matter: a longer password that passlib
   * accepts verifies as its prefix does.
   */
  lemma {:induction false} VerifyIgnoresTail(plain: string, extra: string, hashed: PasswordHash)
    requires |plain| >= BCRYPT_MAX_PASSWORD_LENGTH && !BcryptRefuses(plain + extra)
    ensures VerifyPassword(plain + extra, hashed) == VerifyPassword(plain, hashed)
  {
    var whole := plain + extra;
    assert whole[..BCRYPT_MAX_PASSWORD_LENGTH] == plain[..BCRYPT_MAX_PASSWORD_LENGTH];
  }

  // ---- configuration ----

  /** The settings the application reads from its environment. */
  datatype Settings = Settings(baseUrl: string, frontendUrl: string, jwtSecretKey: string, accessTokenExpireMinutes: int)

  /** Default of ACCESS_TOKEN_EXPIRE_MINUTES when the environment does not set it. */
  const DEFAULT_ACCESS_TOKEN_EXPIRE_MINUTES: nat := 30

  /** `timedelta(days=7)`, the refresh token's default lifetime, in seconds. */
  const REFRESH_TOKEN_LIFETIME: nat := 7 * 24 * 60 * 60

  // ---- JSON claims ----

  /** A claim value as JSON carries it (only the kinds that occur here). */
  datatype JsonValue = JInt(i: int) | JStr(s: string)

  /** A token payload: a JSON object. */
  type Claims = map<string, JsonValue>

  /** `payload.get(key)`. */
  function Get(claims: Claims, key: string): Option<JsonValue>
  {
    if key in claims then Some(claims[key]) else None
  }

  /** Python's `str(v)` for an int or a string subject. */
  function PyStr(v: JsonValue): string
  {
    match v
    case JInt(i) => Numerals.IntToString(i)
    case JStr(s) => s
  }

  /** Python truthiness: 0 and "" are false. */
  predicate Truthy(v: JsonValue)
  {
    match v
    case JInt(i) => i != 0
    case JStr(s) => s != ""
  }

  /** Python's `int(v)`; `None` stands for the `ValueError` it raises. */
  function PyInt(v: JsonValue): Option<int>
  {
    match v
    case JInt(i) => Some(i)
    case JStr(s) => Numerals.ParseInt(s)
  }

  // ---- JWT ----

  /** A token string: either a signed claim set or text that is not a JWT. */
  datatype Jwt = Signed(claims: Claims, key: string) | Malformed(text: string)

  /** `jwt.encode(claims, key)`. */
  function Encode(claims: Claims, key: string): Jwt
  {
    Signed(claims, key)
  }

  /**
   * The `exp` check of `jwt.decode`: when present, python-jose reads it with
   * `int(...)`, which must succeed and give a time not in the past.
   */
  predicate ExpOk(claims: Claims, now: nat)
  {
    "exp" in claims ==> PyInt(claims["exp"]).Some? && now <= PyInt(claims["exp"]).value
  }

  /** A signed numeric-string `exp` is read as its number, so such a token decodes until that time. */
  lemma DecodeReadsStringExp(claims: Claims, key: string, digits: string, now: nat)
    requires Get(claims, "exp") == Some(JStr(digits)) && SubOk(claims)
    requires |digits| >= 1 && Numerals.AllDigits(digits)
    ensures Decode(Encode(claims, key), key, now).Some? <==> now <= Numerals.DigitsValue(digits)
  {
  }

  /** The `sub` check of `jwt.decode`: when present it must be a string. */
  predicate SubOk(claims: Claims)
  {
    "sub" in claims ==> claims["sub"].JStr?
  }

  /** `jwt.decode(token, key)`; `None` stands for the `JWTError` it raises. */
  function Decode(token: Jwt, key: string, now: nat): (r: Option<Claims>)
    ensures r.Some? <==> token.Signed? && token.key == key && ExpOk(token.claims, now) && SubOk(token.claims)
    ensures r.Some? ==> r.value == token.claims
  {
    if token.Signed? && token.key == key && ExpOk(token.claims, now) && SubOk(token.claims)
    then Some(token.claims) else None
  }

  /** The payload check of the refresh endpoint: `payload.get("type") == "refresh"`. */
  predicate IsRefreshPayload(claims: Claims)
  {
    Get(claims, "type") == Some(JStr("refresh"))
  }

  /**
   * Seconds until expiry: `expires_delta` when it is truthy, else the
   * configured access lifetime (thirty minutes under the default setting).
   */
  function ExpiresIn(expiresDelta: Option<int>, settings: Settings): (r: int)
    ensures expiresDelta.Some? && expiresDelta.value != 0 ==> r == expiresDelta.value
    ensures expiresDelta.None? || expiresDelta.value == 0 ==> r == settings.accessTokenExpireMinutes * 60
    ensures ((expiresDelta.None? || expiresDelta.value == 0)
             && settings.accessTokenExpireMinutes == DEFAULT_ACCESS_TOKEN_EXPIRE_MINUTES) ==> r == 1800
  {
    if expiresDelta.Some? && expiresDelta.value != 0 then expiresDelta.value
    else settings.accessTokenExpireMinutes * 60
  }

  /** `verify_token`: the `sub` claim of a token that decodes, else `None`. */
  function VerifyToken(token: Jwt, now: nat, settings: Settings): (r: Option<JsonValue>)
    ensures r.Some? <==> token.Signed? && token.key == settings.jwtSecretKey
                         && ExpOk(token.claims, now) && SubOk(token.claims) && "sub" in token.claims
    ensures r.Some? ==> r.value == token.claims["sub"] && r.value.JStr?
  {
    match Decode(token, settings.jwtSecretKey, now)
    case Some(payload) => Get(payload, "sub")
    case None => None
  }

  /** `is_token_expired`: strictly after the expiry instant. */
  function IsTokenExpired(expirationTime: int, now: nat): (r: bool)
    ensures now as int == expirationTime ==> !r
    ensures now as int == expirationTime + 1 ==> r
  {
    now > expirationTime
  }

  /** A token is accepted exactly up to and including its expiry second, as `is_token_expired` says. */
  lemma DecodeAgreesWithExpiry(claims: Claims, key: string, e: int, now: nat)
    requires Get(claims, "exp") == Some(JInt(e))
    ensures Decode(Encode(claims, key), key, now).Some? <==> SubOk(claims) && !IsTokenExpired(e, now)
    ensures e >= 0 ==> !IsTokenExpired(e, e as nat)
  {
  }

  /** A token signed with another key never decodes. */
  lemma DecodeNeedsKey(claims: Claims, key: string, other: string, now: nat)
    requires key != other
    ensures Decode(Encode(claims, key), other, now) == None
  {
  }

  /**
   * `create_token`: the payload is `exp` and `sub`, plus `"type": "refresh"`
   * exactly when `tokenType` is "refresh"; it then verifies to the subject's
   * string until it expires.
   */
  method CreateToken(subject: JsonValue, expiresDelta: Option<int>, tokenType: string, now: nat, settings: Settings)
    returns (token: Jwt)
    ensures token.Signed? && token.key == settings.jwtSecretKey
    ensures token.claims.Keys == if tokenType == "refresh" then {"exp", "sub", "type"} else {"exp", "sub"}
    ensures Get(token.claims, "exp") == Some(JInt(now + ExpiresIn(expiresDelta, settings)))
    ensures Get(token.claims, "sub") == Some(JStr(PyStr(subject)))
    ensures IsRefreshPayload(token.claims) <==> tokenType == "refresh"
    ensures forall later: nat :: VerifyToken(token, later, settings)
              == if later <= now + ExpiresIn(expiresDelta, settings) then Some(JStr(PyStr(subject))) else None
  {
    var expire: int;
    if expiresDelta.Some? && expiresDelta.value != 0 {
      expire := now + expiresDelta.value;
    } else {
      expire := now + settings.accessTokenExpireMinutes * 60;
    }
    var toEncode: Claims := map["exp" := JInt(expire), "sub" := JStr(PyStr(subject))];
    if tokenType == "refresh" {
      toEncode := toEncode["type" := JStr("refresh")];
    }
    token := Encode(toEncode, settings.jwtSecretKey);
  }

  /** `create_access_token`: never a type claim, so never a refresh payload. */
  method CreateAccessToken(subject: JsonValue, expiresDelta: Option<int>, now: nat, settings: Settings)
    returns (token: Jwt)
    ensures token.Signed? && token.key == settings.jwtSecretKey
    ensures token.claims.Keys == {"exp", "sub"}
    ensures Get(token.claims, "exp") == Some(JInt(now + ExpiresIn(expiresDelta, settings)))
    ensures Get(token.claims, "sub") == Some(JStr(PyStr(subject)))
    ensures !IsRefreshPayload(token.claims)
    ensures forall later: nat :: VerifyToken(token, later, settings)
              == if later <= now + ExpiresIn(expiresDelta, settings) then Some(JStr(PyStr(subject))) else None
  {
    token := CreateToken(subject, expiresDelta, "access", now, settings);
  }

  /** `create_refresh_token`: a refresh payload, seven days unless a (truthy) lifetime is given. */
  method CreateRefreshToken(subject: JsonValue, expiresDelta: Option<int>, now: nat, settings: Settings)
    returns (token: Jwt)
    ensures token.Signed? && token.key == settings.jwtSecretKey
    ensures token.claims.Keys == {"exp", "sub", "type"}
    ensures Get(token.claims, "exp") == Some(JInt(now + RefreshLifetime(expiresDelta)))
    ensures Get(token.claims, "sub") == Some(JStr(PyStr(subject)))
    ensures IsRefreshPayload(token.claims)
    ensures forall later: nat :: VerifyToken(token, later, settings)
              == if later <= now + RefreshLifetime(expiresDelta) then Some(JStr(PyStr(subject))) else None
  {
    var delta := expiresDelta;
    if !(delta.Some? && delta.value != 0) {
      delta := Some(REFRESH_TOKEN_LIFETIME);
    }
    token := CreateToken(subject, delta, "refresh", now, settings);
  }

  /**
   * Seconds a refresh token lives: the given delta when truthy, else seven
   * days. Never zero, so `create_token` takes it as given.
   */
  function RefreshLifetime(expiresDelta: Option<int>): (r: int)
    ensures expiresDelta.Some? && expiresDelta.value != 0 ==> r == expiresDelta.value
    ensures expiresDelta.None? || expiresDelta.value == 0 ==> r == 604800
    ensures r != 0 && forall settings :: ExpiresIn(Some(r), settings) == r
  {
    if expiresDelta.Some? && expiresDelta.value != 0 then expiresDelta.value else REFRESH_TOKEN_LIFETIME
  }
}
