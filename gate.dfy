/**
 * The authentication interceptor of the user service
 * (middleware/jwt_interceptor.go) and the one handler that reads its result
 * (handler/jwt_handler.go). Every call passes a fixed chain of guards; the
 * first that fails ends the call with Unauthenticated and the business handler
 * never runs. A call that passes them all reaches the handler once, with the
 * token's `user_id` claim bound in the context under a private key.
 */
module Gate {
  import opened Wrappers
  import opened Json
  import opened Rpc
  import Decimal
  import opened Jwt

  /** JWT_SECRET of the interceptor. */
  const InterceptorSecret: string := "your_secret_key"

  /**
   * A context key: a value of the interceptor's own `contextKey` type, or a
   * plain string. Go compares interface keys by type and value, so the two
   * kinds never collide even with the same text.
   */
  datatype ContextKey = Private(name: string) | StringKey(name: string)

  /** ContextUserIDKey */
  const ContextUserIdKey: ContextKey := Private("user_id")

  /** A value stored in a context: a Go string, or anything else. */
  datatype ContextValue = Text(s: string) | NotText

  /** gRPC metadata: lower-case header names and their values. */
  type Metadata = map<string, seq<string>>

  /** A request context: the incoming metadata, if any, and the values bound with `context.WithValue`. */
  datatype Context = Context(incoming: Option<Metadata>, values: map<ContextKey, ContextValue>)

  /** `context.WithValue(ctx, key, v)`: the new binding hides any earlier one under the same key. */
  function WithValue(ctx: Context, key: ContextKey, v: ContextValue): Context {
    ctx.(values := ctx.values[key := v])
  }

  /** `md.Get(key)`: the values of a header, none when it is absent. */
  function MetadataGet(md: Metadata, key: string): seq<string> {
    if key in md then md[key] else []
  }

  predicate HasPrefix(s: string, prefix: string) {
    |prefix| <= |s| && s[..|prefix|] == prefix
  }

  predicate HasSuffix(s: string, suffix: string) {
    |suffix| <= |s| && s[|s| - |suffix|..] == suffix
  }

  /** `strings.TrimPrefix` */
  function TrimPrefix(s: string, prefix: string): string {
    if HasPrefix(s, prefix) then s[|prefix|..] else s
  }

  /** The operations let through without a token: matched by the end of the full method name. */
  predicate Exempt(fullMethod: string) {
    || HasSuffix(fullMethod, "LoginUser")
    || HasSuffix(fullMethod, "RegisterUser")
    || HasSuffix(fullMethod, "LoginByCode")
    || HasSuffix(fullMethod, "SendLoginCode")
  }

  function Unauthenticated(message: string): Error {
    Status(Code.Unauthenticated, message)
  }

  /**
   * The guards before verification: metadata must be present, the
   * `authorization` header must have a value, and its first value must begin
   * with "Bearer ". The result is that value with the prefix removed once.
   */
  function BearerToken(ctx: Context): Result<string, Error> {
    if ctx.incoming.None? then Err(Unauthenticated("metadata read error"))
    else
      var authHeaders := MetadataGet(ctx.incoming.value, "authorization");
      if authHeaders == [] then Err(Unauthenticated("Authorization head is empty"))
      else
        var tokenStr := TrimPrefix(authHeaders[0], "Bearer ");
        if tokenStr == authHeaders[0] then Err(Unauthenticated("format error: lack Bearer begin"))
        else Ok(tokenStr)
  }

  /** The first `authorization` value, when there is one. */
  function FirstAuthorization(ctx: Context): Option<string> {
    if ctx.incoming.None? then None
    else
      var authHeaders := MetadataGet(ctx.incoming.value, "authorization");
      if authHeaders == [] then None else Some(authHeaders[0])
  }

  /**
   * The token handed to verification is exactly the first `authorization`
   * value with one leading "Bearer " removed; the comparison of the trimmed
   * string with the original rejects precisely the values without the prefix.
   */
  lemma BearerTokenExactly(ctx: Context)
    ensures BearerToken(ctx).Ok? <==>
              FirstAuthorization(ctx).Some? && HasPrefix(FirstAuthorization(ctx).value, "Bearer ")
    ensures BearerToken(ctx).Ok? ==> BearerToken(ctx).value == FirstAuthorization(ctx).value[7..]
  {
    var first := FirstAuthorization(ctx);
    if first.Some? && HasPrefix(first.value, "Bearer ") {
      assert |TrimPrefix(first.value, "Bearer ")| < |first.value|;
    }
  }

  /** The outcome of the interceptor. */
  datatype Outcome =
    | Invoke(ctx: Context)   // the handler runs once, with this context
    | Reject(error: Error)   // the call ends with this error; the handler does not run
    | Panic(reason: string)  // a failed type assertion: the goroutine panics

  /** How the `user_id` claim is read into the context. */
  datatype ClaimReading =
    | AssertString     // `claims["user_id"].(string)`
    | DecimalOfNumber  // a whole non-negative number, bound as its decimal text

  function ReadUserId(claims: map<string, Json>, reading: ClaimReading): Option<string> {
    match (reading, Find(claims, "user_id"))
    case (AssertString, Some(JStr(s))) => Some(s)
    case (DecimalOfNumber, Some(JNum(x))) =>
      if x >= 0.0 && x.Floor as real == x then Some(Decimal.FormatUint(x.Floor)) else None
    case _ => None
  }

  /**
   * The guard chain, for a verification secret and a way of reading the
   * `user_id` claim. `decode` recovers a token from its compact text.
   */
  function Guard(fullMethod: string, ctx: Context, decode: string -> Option<Token>, now: int,
                 secret: string, reading: ClaimReading): Outcome
  {
    if Exempt(fullMethod) then Invoke(ctx)
    else match BearerToken(ctx)
      case Err(e) => Reject(e)
      case Ok(tokenStr) =>
        match Parse(decode(tokenStr), secret, now)
        case Err(_) => Reject(Unauthenticated("Token invalid or outtime"))
        case Ok(claims) =>
          match ReadUserId(claims, reading)
          case Some(userId) => Invoke(WithValue(ctx, ContextUserIdKey, Text(userId)))
          case None =>
            if reading == AssertString then Panic("interface conversion: user_id is not a string")
            else Reject(Unauthenticated("Token can't read claims"))
  }

  /** `JWTAuthInterceptor()` as written: verification under JWT_SECRET, `user_id` asserted to be a string. */
  function Intercept(fullMethod: string, ctx: Context, decode: string -> Option<Token>, now: int): Outcome {
    Guard(fullMethod, ctx, decode, now, InterceptorSecret, AssertString)
  }

  /**
   * The interceptor as evidently intended: verification under the secret the
   * tokens are signed with, and the numeric `user_id` claim bound as decimal text.
   */
  function InterceptIntended(fullMethod: string, ctx: Context, decode: string -> Option<Token>, now: int): Outcome {
    Guard(fullMethod, ctx, decode, now, JwtSecret, DecimalOfNumber)
  }

  /** `GetUserIDFromContext`: only a string bound under the private key counts. */
  function GetUserIdFromContext(ctx: Context): (r: (string, bool))
    ensures r.1 <==> ContextUserIdKey in ctx.values && ctx.values[ContextUserIdKey].Text?
    ensures r.1 ==> ctx.values[ContextUserIdKey] == Text(r.0)
    ensures !r.1 ==> r.0 == ""
  {
    if ContextUserIdKey in ctx.values then
      match ctx.values[ContextUserIdKey]
      case Text(s) => (s, true)
      case NotText => ("", false)
    else ("", false)
  }

  /** `GetUserIDByJWT`: echoes the user id the interceptor bound. */
  function GetUserIdByJwt(ctx: Context): (r: Result<string, Error>)
    ensures r.Ok? <==> GetUserIdFromContext(ctx).1
    ensures r.Ok? ==> r.value == GetUserIdFromContext(ctx).0
    ensures r.Err? ==> r.error == Status(Internal, "无法从 JWT 中解析 user_id")
  {
    var (userId, ok) := GetUserIdFromContext(ctx);
    if !ok then Err(Status(Internal, "无法从 JWT 中解析 user_id")) else Ok(userId)
  }

  // ----- the guard chain, guard by guard -----

  /** An exempt method reaches the handler with its context unchanged, whatever its metadata and token. */
  lemma ExemptPassesThrough(fullMethod: string, ctx: Context, decode: string -> Option<Token>, now: int)
    requires Exempt(fullMethod)
    ensures Intercept(fullMethod, ctx, decode, now) == Invoke(ctx)
  {
  }

  /** A name whose last character differs from the suffix's does not end with it. */
  lemma LastCharDiffers(s: string, suffix: string)
    requires |s| > 0 && |suffix| > 0 && s[|s| - 1] != suffix[|suffix| - 1]
    ensures !HasSuffix(s, suffix)
  {
  }

  /** The four exempt operations pass the suffix test, and so does any name ending like them. */
  lemma ExemptNames()
    ensures Exempt("/pb.UserService/LoginUser") && Exempt("/pb.UserService/RegisterUser")
    ensures Exempt("/pb.UserService/LoginByCode") && Exempt("/pb.UserService/SendLoginCode")
    ensures Exempt("/pb.AdminService/ForceLoginUser")
  {
  }

  /** The protected operations of the user service do not pass it. */
  lemma ProtectedNames()
    ensures !Exempt("/pb.UserService/GetUserInfo") && !Exempt("/pb.UserService/UpdateAddressBook")
  {
    var names := ["LoginUser", "RegisterUser", "LoginByCode", "SendLoginCode"];
    forall suffix | suffix in names
      ensures !HasSuffix("/pb.UserService/GetUserInfo", suffix)
      ensures !HasSuffix("/pb.UserService/UpdateAddressBook", suffix)
    {
      LastCharDiffers("/pb.UserService/GetUserInfo", suffix);
      LastCharDiffers("/pb.UserService/UpdateAddressBook", suffix);
    }
    assert "LoginUser" in names && "RegisterUser" in names && "LoginByCode" in names && "SendLoginCode" in names;
  }

  /** Without incoming metadata the call is refused. */
  lemma NoMetadataRefused(fullMethod: string, ctx: Context, decode: string -> Option<Token>, now: int)
    requires !Exempt(fullMethod) && ctx.incoming.None?
    ensures Intercept(fullMethod, ctx, decode, now) == Reject(Unauthenticated("metadata read error"))
  {
  }

  /** Without an `authorization` value the call is refused. */
  lemma NoAuthorizationRefused(fullMethod: string, ctx: Context, decode: string -> Option<Token>, now: int)
    requires !Exempt(fullMethod) && ctx.incoming.Some?
    requires MetadataGet(ctx.incoming.value, "authorization") == []
    ensures Intercept(fullMethod, ctx, decode, now) == Reject(Unauthenticated("Authorization head is empty"))
  {
  }

  /** A first `authorization` value without the "Bearer " prefix is refused, whatever follows it. */
  lemma MissingBearerRefused(fullMethod: string, ctx: Context, decode: string -> Option<Token>, now: int)
    requires !Exempt(fullMethod) && FirstAuthorization(ctx).Some?
    requires !HasPrefix(FirstAuthorization(ctx).value, "Bearer ")
    ensures Intercept(fullMethod, ctx, decode, now) == Reject(Unauthenticated("format error: lack Bearer begin"))
  {
  }

  /**
   * Verification sees only the first `authorization` value less its prefix:
   * two decoders that agree on that one string give the same outcome.
   */
  lemma OnlyStrippedTokenVerified(fullMethod: string, ctx: Context, d1: string -> Option<Token>,
                                  d2: string -> Option<Token>, now: int)
    requires FirstAuthorization(ctx).Some? && HasPrefix(FirstAuthorization(ctx).value, "Bearer ")
    requires d1(FirstAuthorization(ctx).value[7..]) == d2(FirstAuthorization(ctx).value[7..])
    ensures Intercept(fullMethod, ctx, d1, now) == Intercept(fullMethod, ctx, d2, now)
  {
    BearerTokenExactly(ctx);
  }

  /** A token that does not parse or is not valid is refused. */
  lemma InvalidTokenRefused(fullMethod: string, ctx: Context, decode: string -> Option<Token>, now: int)
    requires !Exempt(fullMethod) && BearerToken(ctx).Ok?
    requires Parse(decode(BearerToken(ctx).value), InterceptorSecret, now).Err?
    ensures Intercept(fullMethod, ctx, decode, now) == Reject(Unauthenticated("Token invalid or outtime"))
  {
  }

  /**
   * When a protected call reaches the handler, its token verified, and the
   * context handed on is the caller's with a string `user_id` claim bound
   * under the private key and nothing else changed.
   */
  lemma {:induction false} AdmittedCallCarriesClaim(fullMethod: string, ctx: Context, decode: string -> Option<Token>, now: int)
    requires !Exempt(fullMethod) && Intercept(fullMethod, ctx, decode, now).Invoke?
    ensures BearerToken(ctx).Ok?
    ensures var claims := Parse(decode(BearerToken(ctx).value), InterceptorSecret, now);
      var out := Intercept(fullMethod, ctx, decode, now).ctx;
      && claims.Ok?
      && GetUserIdFromContext(out).1
      && Find(claims.value, "user_id") == Some(JStr(GetUserIdFromContext(out).0))
      && out.incoming == ctx.incoming
      && out.values == ctx.values[ContextUserIdKey := Text(GetUserIdFromContext(out).0)]
  {
    match BearerToken(ctx)
    case Ok(tokenStr) =>
      match Parse(decode(tokenStr), InterceptorSecret, now)
      case Ok(claims) =>
        assert ReadUserId(claims, AssertString).Some?;
  }

  /** A value bound under the plain string key "user_id" is invisible to `GetUserIDFromContext`. */
  lemma PlainKeyIgnored(ctx: Context, v: ContextValue)
    ensures GetUserIdFromContext(WithValue(ctx, StringKey("user_id"), v)) == GetUserIdFromContext(ctx)
  {
  }

  // ----- two discrepancies between the interceptor and the token generator -----

  /**
   * Every token `GenerateJWT` issues is refused by the interceptor as written:
   * it is signed under config.JwtSecret but checked under JWT_SECRET.
   */
  lemma GeneratedTokenRefused(fullMethod: string, ctx: Context, decode: string -> Option<Token>,
                              userId: nat, issuedAt: int, now: int)
    requires !Exempt(fullMethod) && BearerToken(ctx).Ok?
    requires decode(BearerToken(ctx).value) == Some(GenerateJWT(userId, issuedAt).value)
    ensures Intercept(fullMethod, ctx, decode, now) == Reject(Unauthenticated("Token invalid or outtime"))
  {
    ForeignSecretRefused(GenerateJWT(userId, issuedAt).value, JwtSecret, InterceptorSecret, now);
  }

  /**
   * Even with the secrets made equal, the string assertion on `user_id`
   * panics on every live generated token, whose `user_id` is a number.
   */
  lemma GeneratedTokenPanicsOnAssertion(fullMethod: string, ctx: Context, decode: string -> Option<Token>,
                                        userId: nat, issuedAt: int, now: int)
    requires !Exempt(fullMethod) && BearerToken(ctx).Ok?
    requires decode(BearerToken(ctx).value) == Some(GenerateJWT(userId, issuedAt).value)
    requires now < issuedAt + TokenExpire
    ensures Guard(fullMethod, ctx, decode, now, JwtSecret, AssertString).Panic?
  {
    GeneratedTokenLifetime(userId, issuedAt, now);
    GeneratedPayload(userId, issuedAt);
  }

  /**
   * The intended interceptor admits a generated token exactly while it is
   * live, binding the decimal user id, which `GetUserIDByJWT` then returns.
   */
  lemma {:induction false} IssuedTokenAdmitted(fullMethod: string, ctx: Context, decode: string -> Option<Token>,
                                                userId: nat, issuedAt: int, now: int)
    requires !Exempt(fullMethod) && BearerToken(ctx).Ok?
    requires decode(BearerToken(ctx).value) == Some(GenerateJWT(userId, issuedAt).value)
    ensures now < issuedAt + TokenExpire ==>
      && InterceptIntended(fullMethod, ctx, decode, now)
           == Invoke(WithValue(ctx, ContextUserIdKey, Text(Decimal.FormatUint(userId))))
      && GetUserIdByJwt(InterceptIntended(fullMethod, ctx, decode, now).ctx) == Ok(Decimal.FormatUint(userId))
    ensures now >= issuedAt + TokenExpire ==>
      InterceptIntended(fullMethod, ctx, decode, now) == Reject(Unauthenticated("Token invalid or outtime"))
  {
    GeneratedTokenLifetime(userId, issuedAt, now);
    GeneratedPayload(userId, issuedAt);
    assert (userId as real).Floor == userId;
  }
}
