/** The token layer: issuing access and refresh tokens, reading the token
    out of the `Authorization` header, validating either kind, and the
    permission check. Time is Unix seconds, passed in as `now`. */
module Tokens {
  import opened Wrappers
  import opened Jwt
  import GoStrings

  /** `15 * time.Minute`, in seconds. */
  const AccessTtl := 900
  /** `168 * time.Hour`, in seconds. */
  const RefreshTtl := 604800

  /** The refresh token's claims object: the user id and the expiry only. */
  datatype RefreshClaims = RefreshClaims(userId: string, expiresAt: int)

  /** How a refresh claims object is written into a token: no permissions. */
  function RefreshAsClaims(c: RefreshClaims): Claims
  {
    Claims(c.userId, [], c.expiresAt)
  }

  /** The access token `GenerateAccessToken` signs: the caller's claims with
      the expiry overwritten to 900 seconds after issue, HS256, tagged under
      the access secret. */
  function MintAccess(cfg: Config, now: int, data: Claims): (t: Token)
    ensures t.alg == HS256
    ensures t.claims.userId == data.userId && t.claims.permissions == data.permissions
    ensures t.claims.expiresAt == now + 900
    ensures t.tag == cfg.mac(cfg.accessSecret, HS256, t.claims)
  {
    var c := data.(expiresAt := now + AccessTtl);
    Token(HS256, c, cfg.mac(cfg.accessSecret, HS256, c))
  }

  /** The refresh token `GenerateRefreshToken` signs: the user id only,
      expiring 604800 seconds after issue, HS256, tagged under the refresh
      secret. */
  function MintRefresh(cfg: Config, now: int, data: RefreshClaims): (t: Token)
    ensures t.alg == HS256
    ensures t.claims.userId == data.userId && t.claims.permissions == []
    ensures t.claims.expiresAt == now + 604800
    ensures t.tag == cfg.mac(cfg.refreshSecret, HS256, t.claims)
  {
    var c := RefreshAsClaims(data.(expiresAt := now + RefreshTtl));
    Token(HS256, c, cfg.mac(cfg.refreshSecret, HS256, c))
  }

  /** `SignedString`: serialise a token, turning a failure into an error. */
  function Sign(cfg: Config, t: Token): (r: Result<string, JwtError>)
    ensures r.Success? <==> cfg.serialise(t).Success?
    ensures CodecRoundTrip(cfg) && r.Success? ==> cfg.parse(r.value) == Some(t) && ' ' !in r.value
  {
    match cfg.serialise(t)
    case Success(s) => Success(s)
    case Failure(e) => Failure(SigningFailed(e))
  }

  /** `GenerateAccessToken`. */
  function GenerateAccessToken(cfg: Config, now: int, data: Claims): (r: Result<string, JwtError>)
    ensures CodecRoundTrip(cfg) && r.Success? ==> cfg.parse(r.value) == Some(MintAccess(cfg, now, data))
  {
    Sign(cfg, MintAccess(cfg, now, data))
  }

  /** `GenerateRefreshToken`. */
  function GenerateRefreshToken(cfg: Config, now: int, data: RefreshClaims): (r: Result<string, JwtError>)
    ensures CodecRoundTrip(cfg) && r.Success? ==> cfg.parse(r.value) == Some(MintRefresh(cfg, now, data))
  {
    Sign(cfg, MintRefresh(cfg, now, data))
  }

  /** `GetTokenPair`'s three results. */
  datatype TokenPair = TokenPair(access: string, refresh: string, err: Option<JwtError>)

  /** `GetTokenPair`: both tokens are generated, the refresh claims from
      the user id alone; any failure yields two empty strings, the access
      token's error reported in preference to the refresh token's. */
  function GetTokenPair(cfg: Config, now: int, data: Claims): (r: TokenPair)
    ensures r.err.None? <==>
      GenerateAccessToken(cfg, now, data).Success? && GenerateRefreshToken(cfg, now, RefreshClaims(data.userId, 0)).Success?
    ensures r.err.Some? ==> r.access == "" && r.refresh == ""
    ensures GenerateAccessToken(cfg, now, data).Failure? ==> r.err == Some(GenerateAccessToken(cfg, now, data).error)
    ensures GenerateAccessToken(cfg, now, data).Success? && GenerateRefreshToken(cfg, now, RefreshClaims(data.userId, 0)).Failure?
      ==> r.err == Some(GenerateRefreshToken(cfg, now, RefreshClaims(data.userId, 0)).error)
    ensures r.err.None? ==>
      r.access == GenerateAccessToken(cfg, now, data).value
      && r.refresh == GenerateRefreshToken(cfg, now, RefreshClaims(data.userId, 0)).value
  {
    var access := GenerateAccessToken(cfg, now, data);
    var refresh := GenerateRefreshToken(cfg, now, RefreshClaims(data.userId, 0));
    if access.Failure? then TokenPair("", "", Some(access.error))
    else if refresh.Failure? then TokenPair("", "", Some(refresh.error))
    else TokenPair(access.value, refresh.value, None)
  }

  /** `GetTokenFromHeader`: the second space-separated field of the header.
      Indexing a one-element split panics, so a header without a space
      panics. */
  function GetTokenFromHeader(header: string): (r: Run<string>)
    ensures r.Panics? <==> ' ' !in header
    ensures r.Returns? ==> ' ' !in r.value
  {
    var fields := GoStrings.Split(header, ' ');
    if |fields| < 2 then Panics else Returns(fields[1])
  }

  /** The key function both validators hand to the library: refuse any
      algorithm but HS256, otherwise supply `secret`. */
  function HS256Only(secret: Secret): (keyFunc: Token -> Result<Secret, JwtError>)
    ensures forall t :: keyFunc(t).Failure? <==> t.alg != HS256
    ensures forall t :: keyFunc(t).Failure? ==> keyFunc(t).error == UnexpectedSigningMethod
    ensures forall t :: keyFunc(t).Success? ==> keyFunc(t).value == secret
  {
    (t: Token) => if t.alg != HS256 then Failure(UnexpectedSigningMethod) else Success(secret)
  }

  /** The `(isValid, claims, err)` triple a validator returns. */
  datatype Validation<C> = Validation(isValid: bool, claims: C, err: Option<JwtError>)

  /** Reference definition of acceptance: the text parses to a token that
      declares HS256, has not expired at `now`, and carries the tag of its
      claims under `secret`. */
  ghost predicate Accepted(cfg: Config, secret: Secret, now: int, text: string)
  {
    match cfg.parse(text)
    case None => false
    case Some(t) =>
      t.alg == HS256 && NotExpired(t.claims.expiresAt, now) && t.tag == cfg.mac(secret, HS256, t.claims)
  }

  /** `ValidateAccessJWT`. */
  function ValidateAccessJWT(cfg: Config, now: int, text: string): (v: Validation<Claims>)
    ensures v.isValid <==> v.err.None?
    ensures v.isValid <==> Accepted(cfg, cfg.accessSecret, now, text)
    ensures cfg.parse(text).Some? && cfg.parse(text).value.alg != HS256 ==>
      v.err == Some(UnexpectedSigningMethod)
    ensures cfg.parse(text).Some? ==> v.claims == cfg.parse(text).value.claims
    ensures cfg.parse(text).None? ==> v == Validation(false, cfg.partial(text), Some(Malformed))
  {
    var p := ParseWithClaims(cfg, now, text, HS256Only(cfg.accessSecret));
    if p.err.Some? then Validation(false, p.claims, p.err) else Validation(true, p.claims, None)
  }

  /** `ValidateRefreshJWT`: as the access validator, under the refresh
      secret, decoding into the refresh claims shape. */
  function ValidateRefreshJWT(cfg: Config, now: int, text: string): (v: Validation<RefreshClaims>)
    ensures v.isValid <==> v.err.None?
    ensures v.isValid <==> Accepted(cfg, cfg.refreshSecret, now, text)
    ensures cfg.parse(text).Some? && cfg.parse(text).value.alg != HS256 ==>
      v.err == Some(UnexpectedSigningMethod)
    ensures cfg.parse(text).Some? ==>
      v.claims == RefreshClaims(cfg.parse(text).value.claims.userId, cfg.parse(text).value.claims.expiresAt)
    ensures cfg.parse(text).None? ==>
      v == Validation(false, RefreshClaims(cfg.partial(text).userId, cfg.partial(text).expiresAt), Some(Malformed))
  {
    var p := ParseWithClaims(cfg, now, text, HS256Only(cfg.refreshSecret));
    var claims := RefreshClaims(p.claims.userId, p.claims.expiresAt);
    if p.err.Some? then Validation(false, claims, p.err) else Validation(true, claims, None)
  }

  /** `DoesTokenContainPermission` as written: a token that fails
      validation gives false; a valid one gives true whether or not the
      permission is listed, because the loop's fall-through also returns
      true. */
  function DoesTokenContainPermission(cfg: Config, now: int, permission: string, header: string): (r: Run<bool>)
    ensures r.Panics? <==> ' ' !in header
    ensures r.Returns? ==>
      (r.value <==> ValidateAccessJWT(cfg, now, GetTokenFromHeader(header).value).isValid)
  {
    match GetTokenFromHeader(header)
    case Panics => Panics
    case Returns(text) =>
      var v := ValidateAccessJWT(cfg, now, text);
      if !v.isValid then Returns(false)
      else if permission in v.claims.permissions then Returns(true)
      else Returns(true)
  }

  /** The header field holding the token, or `None` when the header has
      no second field, instead of panicking. */
  function BearerToken(header: string): (r: Option<string>)
    ensures r.None? <==> ' ' !in header
    ensures r.Some? ==> GetTokenFromHeader(header) == Returns(r.value)
  {
    match GetTokenFromHeader(header)
    case Panics => None
    case Returns(text) => Some(text)
  }

  /** The permission check as evidently intended: true exactly when the
      header carries a valid access token whose permission list holds
      `permission`; a header without a token gives false. */
  method TokenHasPermission(cfg: Config, now: int, permission: string, header: string) returns (found: bool)
    ensures found <==>
      BearerToken(header).Some?
      && ValidateAccessJWT(cfg, now, BearerToken(header).value).isValid
      && permission in ValidateAccessJWT(cfg, now, BearerToken(header).value).claims.permissions
  {
    var text := BearerToken(header);
    if text.None? {
      return false;
    }
    var v := ValidateAccessJWT(cfg, now, text.value);
    if !v.isValid {
      return false;
    }
    var perms := v.claims.permissions;
    found := false;
    var i := 0;
    while i < |perms|
      invariant 0 <= i <= |perms|
      invariant found <==> permission in perms[..i]
    {
      if perms[i] == permission {
        found := true;
      }
      i := i + 1;
    }
    assert perms[..i] == perms;
  }
}
