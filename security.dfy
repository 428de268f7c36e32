/** Password checking and JWT handling at the level of claims.

    A token is either one this backend signed, carrying its claims, or a
    string that does not verify under the secret key. Encoding turns the
    `exp` datetime into whole seconds since the epoch, as jose does; decoding
    rejects a bad signature, an `exp` in the past and a `sub` that is not a
    string, all of which raise JWTError. Times are seconds since the epoch. */
module Security {
  import opened Wrappers
  import opened Values

  /** What argon2's PasswordHasher.verify does for a (hash, password) pair. */
  datatype HashCheck = Matched | Mismatch | Raised

  /** verify_password: True only on a match; a mismatch and any other
      exception both give False. */
  function VerifyPassword(check: (string, string) -> HashCheck, plain: string, hashed: string): (r: bool)
    ensures r <==> check(hashed, plain) == Matched
    ensures check(hashed, plain) == Raised ==> !r
  {
    match check(hashed, plain)
    case Matched => true
    case Mismatch => false
    case Raised => false
  }

  datatype Token = Signed(claims: Document) | Forged(raw: string)

  // The defaults of the settings (config.py).
  const AccessTokenExpireSeconds: int := 30 * 60
  const RefreshTokenExpireSeconds: int := 7 * 24 * 60 * 60
  const ResetTokenExpireSeconds: int := 60 * 60

  /** The claims with `exp` and `type` set, every other claim kept. */
  function WithExpiry(data: Document, expire: int, kind: string): Document {
    data["exp" := Int(expire)]["type" := Str(kind)]
  }

  /** create_access_token: a copy of the claims with `exp` set to now plus the
      given delta (when it is a non-zero duration) or 30 minutes, and `type`
      set to "access". */
  function CreateAccessToken(data: Document, expiresDelta: Option<int>, now: int): Token {
    var expire := if expiresDelta.Some? && expiresDelta.value != 0 then now + expiresDelta.value
                  else now + AccessTokenExpireSeconds;
    Signed(WithExpiry(data, expire, "access"))
  }

  /** create_refresh_token: `exp` 7 days ahead and `type` "refresh". */
  function CreateRefreshToken(data: Document, now: int): Token {
    Signed(WithExpiry(data, now + RefreshTokenExpireSeconds, "refresh"))
  }

  /** create_password_reset_token: exactly `sub`, `exp` one hour ahead and `type`. */
  function CreatePasswordResetToken(email: string, now: int): Token {
    Signed(map["sub" := Str(email), "exp" := Int(now + ResetTokenExpireSeconds), "type" := Str("password_reset")])
  }

  /** jwt.decode: None where it raises JWTError. */
  function Decode(t: Token, now: int): (r: Option<Document>)
    ensures r.Some? <==> t.Signed? && ("exp" in t.claims ==> t.claims["exp"].Int? && t.claims["exp"].i >= now) &&
                           ("sub" in t.claims ==> t.claims["sub"].Str?)
    ensures r.Some? ==> r.value == t.claims
  {
    match t
    case Forged(_) => None
    case Signed(c) =>
      if "exp" in c && !(c["exp"].Int? && c["exp"].i >= now) then None
      else if "sub" in c && !c["sub"].Str? then None
      else Some(c)
  }

  /** The subject of a decoded token when its `type` claim is the given one. */
  function SubjectOfType(claims: Document, kind: string): Option<string> {
    match Get(claims, "sub")
    case Str(s) => if Get(claims, "type") == Str(kind) then Some(s) else None
    case _ => None
  }

  /** verify_token: the `sub` claim of a token that decodes and whose `type`
      claim equals tokenType; None in every other case, decode errors included. */
  function VerifyToken(t: Token, tokenType: string, now: int): Option<string> {
    match Decode(t, now)
    case None => None
    case Some(claims) => SubjectOfType(claims, tokenType)
  }

  /** verify_password_reset_token: the same test for the "password_reset" type. */
  function VerifyPasswordResetToken(t: Token, now: int): Option<string> {
    match Decode(t, now)
    case None => None
    case Some(claims) => SubjectOfType(claims, "password_reset")
  }

  /** A verified subject comes from a signed, unexpired token whose `sub` is
      that subject and whose `type` is the one asked for. */
  lemma VerifyTokenSound(t: Token, tokenType: string, now: int, sub: string)
    requires VerifyToken(t, tokenType, now) == Some(sub)
    ensures t.Signed? && "sub" in t.claims && t.claims["sub"] == Str(sub)
    ensures "type" in t.claims && t.claims["type"] == Str(tokenType)
    ensures "exp" in t.claims ==> t.claims["exp"].Int? && now <= t.claims["exp"].i
  {
  }

  /** The token builders work on a copy: every claim of the input other than
      `exp` and `type` is carried over unchanged, and nothing else is added. */
  lemma WithExpiryKeepsClaims(data: Document, expire: int, kind: string)
    ensures var c := WithExpiry(data, expire, kind);
            c.Keys == data.Keys + {"exp", "type"} &&
            c["exp"] == Int(expire) && c["type"] == Str(kind) &&
            forall k :: k in data && k != "exp" && k != "type" ==> c[k] == data[k]
  {
  }

  /** An access token for {"sub": id} gives id back as an access token until
      it expires, and is refused where any other type is required. */
  lemma AccessTokenRoundTrip(id: string, expiresDelta: Option<int>, now: int, later: int, otherType: string)
    requires otherType != "access"
    ensures var t := CreateAccessToken(map["sub" := Str(id)], expiresDelta, now);
            (VerifyToken(t, "access", later) == Some(id) <==> later <= t.claims["exp"].i) &&
            VerifyToken(t, otherType, later) == None &&
            VerifyPasswordResetToken(t, later) == None
  {
    var t := CreateAccessToken(map["sub" := Str(id)], expiresDelta, now);
    assert t.claims["sub"] == Str(id) && t.claims["type"] == Str("access");
  }

  /** A refresh token for {"sub": id} verifies only as a refresh token, for
      seven days. */
  lemma RefreshTokenRoundTrip(id: string, now: int, later: int, otherType: string)
    requires otherType != "refresh"
    ensures var t := CreateRefreshToken(map["sub" := Str(id)], now);
            (VerifyToken(t, "refresh", later) == Some(id) <==> later <= now + RefreshTokenExpireSeconds) &&
            VerifyToken(t, otherType, later) == None &&
            VerifyPasswordResetToken(t, later) == None
  {
    var t := CreateRefreshToken(map["sub" := Str(id)], now);
    assert t.claims["sub"] == Str(id) && t.claims["type"] == Str("refresh");
  }

  /** A reset token carries the email for one hour and is never accepted as
      an access or refresh token. */
  lemma ResetTokenRoundTrip(email: string, now: int, later: int)
    ensures var t := CreatePasswordResetToken(email, now);
            (VerifyPasswordResetToken(t, later) == Some(email) <==> later <= now + ResetTokenExpireSeconds) &&
            VerifyToken(t, "access", later) == None &&
            VerifyToken(t, "refresh", later) == None
  {
    var t := CreatePasswordResetToken(email, now);
    assert t.claims["sub"] == Str(email) && t.claims["type"] == Str("password_reset");
  }

  /** A string that does not verify under the key is refused, never an error. */
  lemma ForgedRefused(raw: string, tokenType: string, now: int)
    ensures VerifyToken(Forged(raw), tokenType, now) == None
    ensures VerifyPasswordResetToken(Forged(raw), now) == None
  {
  }
}
