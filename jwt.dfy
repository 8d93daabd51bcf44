/** `infrastructure/security/jwt.go`: the claims a token is issued with, the normalisation of
    an `Authorization` value, and the outcomes of validation. Signing and parsing belong to
    the JWT library and come in as functions. */
module Security {
  import opened Wrappers
  import opened GoStrings

  const BearerPrefix := "Bearer "

  /** 24 hours, in seconds. */
  const TokenLifetime := 24 * 60 * 60

  /** `JWTClaims`: the user id and the `ExpiresAt` of the embedded standard claims. */
  datatype JWTClaims = JWTClaims(userId: int, expiresAt: int)

  /** The two errors `ValidateJWT` returns: the parser's own, or `jwt.ErrSignatureInvalid`. */
  datatype JwtError = ParseError(message: string) | ErrSignatureInvalid

  /** What `jwt.ParseWithClaims` hands back: an error, or a token with its `Valid` flag and
      the claims it filled in. */
  datatype ParseOutcome = ParseFailed(err: string) | Parsed(valid: bool, claims: JWTClaims)

  /** `t` starts with "Bearer " in any letter case and has something after it. */
  predicate HasBearer(t: string) {
    |t| > 7 && EqualFoldAscii(t[..7], BearerPrefix)
  }

  /** The token string `ValidateJWT` parses: trimmed, then one case-insensitive "Bearer "
      removed and the rest trimmed again. */
  function NormalizeToken(tokenStr: string): (r: string)
    ensures Trimmed(r)
    ensures |r| <= |tokenStr|
  {
    var t := TrimSpace(tokenStr);
    if HasBearer(t) then TrimSpace(t[7..]) else t
  }

  /** White space, a "Bearer " in any case, more white space, the token and trailing white
      space: exactly the token is parsed. */
  lemma NormalizeBearer(lead: string, prefix: string, gap: string, token: string, trail: string)
    requires AllSpace(lead) && AllSpace(gap) && AllSpace(trail)
    requires |prefix| == 7 && EqualFoldAscii(prefix, BearerPrefix)
    requires Trimmed(token) && |token| > 0
    ensures NormalizeToken(lead + prefix + gap + token + trail) == token
  {
    var core := prefix + gap + token;
    assert ToLowerAscii(prefix[0]) == 'b';
    assert lead + prefix + gap + token + trail == lead + core + trail;
    TrimSpaceWrapped(lead, core, trail);
    assert core[..7] == prefix;
    assert core[7..] == [] + gap + token + [];
    TrimSpaceWrapped([] + gap, token, []);
  }

  /** An unprefixed value is only trimmed. */
  lemma NormalizeUnprefixed(lead: string, token: string, trail: string)
    requires AllSpace(lead) && AllSpace(trail) && Trimmed(token)
    requires !HasBearer(token)
    ensures NormalizeToken(lead + token + trail) == token
  {
    TrimSpaceWrapped(lead, token, trail);
  }

  /** Only one prefix is removed: "Bearer Bearer x" is parsed as "Bearer x". */
  lemma OnlyOnePrefixRemoved(x: string)
    requires Trimmed(x) && |x| > 0
    ensures NormalizeToken(BearerPrefix + BearerPrefix + x) == BearerPrefix + x
  {
    assert BearerPrefix + BearerPrefix + x == [] + BearerPrefix + [] + (BearerPrefix + x) + [];
    NormalizeBearer([], BearerPrefix, [], BearerPrefix + x, []);
  }

  /** A bare "Bearer" or "Bearer " is not stripped; the parser sees "Bearer". */
  lemma BarePrefixKept()
    ensures NormalizeToken(BearerPrefix) == "Bearer"
  {
    assert BearerPrefix == [] + "Bearer" + " ";
    TrimSpaceWrapped([], "Bearer", " ");
  }

  /** The claims `GenerateJWT` signs: the user id, and an expiry 24 hours after the issue
      time, in Unix seconds. */
  function IssueClaims(userID: int, nowUnix: int): (c: JWTClaims)
    ensures c.userId == userID
    ensures c.expiresAt - nowUnix == TokenLifetime
  {
    JWTClaims(userID, nowUnix + TokenLifetime)
  }

  /** `GenerateJWT`: the HS256 signature of the issued claims, or the signer's error. */
  function GenerateJWT(userID: int, nowUnix: int, sign: JWTClaims -> Result<string, string>): (r: Result<string, string>)
    ensures r == sign(JWTClaims(userID, nowUnix + TokenLifetime))
  {
    sign(IssueClaims(userID, nowUnix))
  }

  /** The branches after parsing: the parser's error, the invalid-signature error, or the claims. */
  function ValidationOutcome(p: ParseOutcome): (r: Result<JWTClaims, JwtError>)
    ensures r.Success? <==> p.Parsed? && p.valid
    ensures p.ParseFailed? ==> r == Failure(ParseError(p.err))
    ensures p.Parsed? && !p.valid ==> r == Failure(ErrSignatureInvalid)
    ensures r.Success? ==> r.value == p.claims
  {
    match p
    case ParseFailed(e) => Failure(ParseError(e))
    case Parsed(valid, claims) => if valid then Success(claims) else Failure(ErrSignatureInvalid)
  }

  /** `ValidateJWT` over the library's parser. */
  function ValidateJWT(tokenStr: string, parse: string -> ParseOutcome): (r: Result<JWTClaims, JwtError>)
    ensures r == ValidationOutcome(parse(NormalizeToken(tokenStr)))
  {
    ValidationOutcome(parse(NormalizeToken(tokenStr)))
  }

  /** Issue then validate: when the parser recognises what the signer produced, a
      "Bearer "-prefixed token validates to the claims it was issued with. */
  lemma IssueThenValidate(userID: int, nowUnix: int, sign: JWTClaims -> Result<string, string>,
                          parse: string -> ParseOutcome)
    requires GenerateJWT(userID, nowUnix, sign).Success?
    requires Trimmed(GenerateJWT(userID, nowUnix, sign).value) && |GenerateJWT(userID, nowUnix, sign).value| > 0
    requires parse(GenerateJWT(userID, nowUnix, sign).value) == Parsed(true, IssueClaims(userID, nowUnix))
    ensures ValidateJWT(BearerPrefix + GenerateJWT(userID, nowUnix, sign).value, parse)
         == Success(JWTClaims(userID, nowUnix + TokenLifetime))
  {
    var token := GenerateJWT(userID, nowUnix, sign).value;
    assert BearerPrefix + token == [] + BearerPrefix + [] + token + [];
    NormalizeBearer([], BearerPrefix, [], token, []);
  }
}
