/**
 * Bearer tokens: the claims `GenerateJWT` signs (util/jwt_helper.go, with the
 * constants of config/jwt.go) and the checks `jwt.Parse` performs when given
 * an HMAC secret. Signing is modelled symbolically: a signature records the
 * key, the algorithm and the payload it was made from, so two signatures are
 * equal only when all three are. The compact base64 text of a token is not
 * modelled; a token is held as its parts.
 */
module Jwt {
  import opened Wrappers
  import opened Json

  /** config.JwtSecret, the key `GenerateJWT` signs with. */
  const JwtSecret: string := "MairuidaSuperSecretKey"

  /** config.TokenExpire: seven days, in seconds. */
  const TokenExpire: int := 60 * 60 * 24 * 7

  /** config.Issuer */
  const Issuer: string := "mairuida_user_service"

  datatype Alg = HS256 | HS384 | HS512 | RS256 | NoneAlg

  predicate IsHmac(a: Alg) {
    a == HS256 || a == HS384 || a == HS512
  }

  /** A key as Go passes it: an `interface{}` that the HMAC methods need to be a `[]byte`. */
  datatype Key = KeyBytes(bytes: string) | KeyOther

  /** A signature: the MAC of a payload under a key, or bytes that are no such MAC. */
  datatype Signature = Mac(key: string, alg: Alg, payload: Json) | Junk(raw: string)

  /** A token: the algorithm named in its header, its payload and its signature. */
  datatype Token = Token(alg: Alg, payload: Json, signature: Signature)

  /** The `Claims` struct: the user id and the registered claims `GenerateJWT` fills in. */
  datatype Claims = Claims(userId: nat, expiresAt: int, issuer: string, issuedAt: int)

  /**
   * The JSON payload of a `Claims` value: `user_id` and the registered claims;
   * those are `omitempty`, so only the three that are set appear.
   */
  function ClaimsJson(c: Claims): Json {
    JObj(map["user_id" := JNum(c.userId as real), "iss" := JStr(c.issuer),
             "exp" := JNum(c.expiresAt as real), "iat" := JNum(c.issuedAt as real)])
  }

  datatype SignError = ErrInvalidKeyType | ErrUnsupportedAlg

  /** `token.SignedString(key)` for a token made by `jwt.NewWithClaims(alg, claims)`. */
  function SignedString(alg: Alg, payload: Json, key: Key): Result<Token, SignError> {
    if !IsHmac(alg) then Err(ErrUnsupportedAlg)
    else match key
      case KeyBytes(k) => Ok(Token(alg, payload, Mac(k, alg, payload)))
      case KeyOther => Err(ErrInvalidKeyType)
  }

  /** The claims `GenerateJWT(userID)` builds when the clock reads `now`. */
  function GeneratedClaims(userId: nat, now: int): Claims {
    Claims(userId, now + TokenExpire, Issuer, now)
  }

  /**
   * `GenerateJWT(userID)` at time `now`: the claims are signed with HS256 under
   * config.JwtSecret, and a signing error would be handed back to the caller.
   */
  function GenerateJWT(userId: nat, now: int): (r: Result<Token, SignError>)
    ensures r.Ok? && r.value.alg == HS256
    ensures r.value.payload == ClaimsJson(GeneratedClaims(userId, now))
    ensures r.value.signature == Mac(JwtSecret, HS256, r.value.payload)
  {
    SignedString(HS256, ClaimsJson(GeneratedClaims(userId, now)), KeyBytes(JwtSecret))
  }

  /** The payload carries the caller's user id, the issue time, the issue time plus seven days, and the issuer. */
  lemma GeneratedPayload(userId: nat, now: int)
    ensures var ms := GenerateJWT(userId, now).value.payload.members;
      && Find(ms, "user_id") == Some(JNum(userId as real))
      && Find(ms, "iat") == Some(JNum(now as real))
      && Find(ms, "exp") == Some(JNum((now + 604800) as real))
      && Find(ms, "iss") == Some(JStr("mairuida_user_service"))
  {
  }

  /** Why `jwt.Parse` refuses a token. */
  datatype ParseError =
    | Malformed              // not three segments, bad base64, payload not a JSON object
    | UnverifiableAlg        // `none`, or an algorithm the []byte key cannot verify
    | SignatureInvalid
    | ClaimType(name: string) // a registered time claim that is not a number
    | Expired
    | NotYetValid

  /** The `exp` check: the token is valid strictly before its expiry; an absent `exp` passes. */
  function CheckExpiry(claims: map<string, Json>, now: int): Result<(), ParseError> {
    match Find(claims, "exp")
    case None => Ok(())
    case Some(JNum(x)) => if (now as real) < x then Ok(()) else Err(Expired)
    case Some(_) => Err(ClaimType("exp"))
  }

  /** The `nbf` check: an absent `nbf` passes. `iat` is not checked by default. */
  function CheckNotBefore(claims: map<string, Json>, now: int): Result<(), ParseError> {
    match Find(claims, "nbf")
    case None => Ok(())
    case Some(JNum(x)) => if (now as real) >= x then Ok(()) else Err(NotYetValid)
    case Some(_) => Err(ClaimType("nbf"))
  }

  /**
   * The time claims admit the token at `now`: an `exp` present is a number
   * still ahead of `now`, and an `nbf` present is a number `now` has reached.
   */
  predicate TimesAllow(claims: map<string, Json>, now: int) {
    && ("exp" in claims ==> claims["exp"].JNum? && (now as real) < claims["exp"].n)
    && ("nbf" in claims ==> claims["nbf"].JNum? && claims["nbf"].n <= now as real)
  }

  /**
   * `jwt.Parse(tokenStr, keyFunc)` with a key function that returns
   * `[]byte(secret)` and no parser options, at time `now`; `token` is the
   * decoded form of `tokenStr`, `None` when it does not decode. It succeeds
   * exactly for an HMAC token with an object payload, signed under the
   * secret over that payload, whose time claims admit it; the result is then
   * the payload as `jwt.MapClaims`.
   */
  function Parse(token: Option<Token>, secret: string, now: int): (r: Result<map<string, Json>, ParseError>)
    ensures r.Ok? <==>
              && token.Some? && token.value.payload.JObj? && IsHmac(token.value.alg)
              && token.value.signature == Mac(secret, token.value.alg, token.value.payload)
              && TimesAllow(token.value.payload.members, now)
    ensures r.Ok? ==> token.value.payload == JObj(r.value)
  {
    match token
    case None => Err(Malformed)
    case Some(t) =>
      if !t.payload.JObj? then Err(Malformed)
      else if !IsHmac(t.alg) then Err(UnverifiableAlg)
      else if t.signature != Mac(secret, t.alg, t.payload) then Err(SignatureInvalid)
      else
        var _ :- CheckExpiry(t.payload.members, now);
        var _ :- CheckNotBefore(t.payload.members, now);
        Ok(t.payload.members)
  }

  /** A token whose `exp` is not ahead of `now` is refused. */
  lemma ExpiredRefused(t: Token, secret: string, now: int, x: real)
    requires t.payload.JObj? && Find(t.payload.members, "exp") == Some(JNum(x)) && x <= now as real
    ensures Parse(Some(t), secret, now).Err?
  {
  }

  /** A token whose `nbf` lies after `now` is refused. */
  lemma NotYetValidRefused(t: Token, secret: string, now: int, x: real)
    requires t.payload.JObj? && Find(t.payload.members, "nbf") == Some(JNum(x)) && now as real < x
    ensures Parse(Some(t), secret, now).Err?
  {
  }

  /** A token signed under one secret is refused under any other. */
  lemma ForeignSecretRefused(t: Token, secret: string, other: string, now: int)
    requires t.signature.Mac? && t.signature.key == secret && other != secret
    ensures Parse(Some(t), other, now).Err?
  {
  }

  /** A generated token parses under config.JwtSecret exactly while it has not expired. */
  lemma {:induction false} GeneratedTokenLifetime(userId: nat, now: int, at: int)
    ensures Parse(Some(GenerateJWT(userId, now).value), JwtSecret, at).Ok? <==> at < now + TokenExpire
    ensures at < now + TokenExpire ==>
      Parse(Some(GenerateJWT(userId, now).value), JwtSecret, at) == Ok(GenerateJWT(userId, now).value.payload.members)
  {
    var ms := GenerateJWT(userId, now).value.payload.members;
    GeneratedPayload(userId, now);
    assert Find(ms, "nbf") == None;
  }
}
