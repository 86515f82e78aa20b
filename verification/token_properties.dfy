/** Properties relating the token layer's operations to one another:
    issue-then-validate round trips, expiry, the algorithm gate, secret
    separation, the header format and the permission check. */
module TokenProperties {
  import opened Wrappers
  import opened Jwt
  import opened Tokens
  import GoStrings

  /** An access token issued at `t` validates, at any `now` up to `t + 900`,
      to the issued claims with the expiry set to `t + 900`. */
  lemma AccessRoundTrip(cfg: Config, c: Claims, t: int, now: int, text: string)
    requires CodecRoundTrip(cfg)
    requires GenerateAccessToken(cfg, t, c) == Success(text)
    requires now <= t + 900
    ensures ValidateAccessJWT(cfg, now, text) == Validation(true, c.(expiresAt := t + 900), None)
  {
  }

  /** From second `t + 901` on, the same access token is rejected as
      expired. */
  lemma AccessExpires(cfg: Config, c: Claims, t: int, now: int, text: string)
    requires CodecRoundTrip(cfg)
    requires GenerateAccessToken(cfg, t, c) == Success(text)
    requires now > t + 900
    ensures ValidateAccessJWT(cfg, now, text) == Validation(false, c.(expiresAt := t + 900), Some(Expired))
  {
  }

  /** Why an HS256 token is refused, for any token and either secret: a
      token past its expiry is the expiry error, and an unexpired one whose
      tag does not match under the validator's secret, a tampered one, is
      the bad-signature error. */
  lemma RejectionReasons(cfg: Config, now: int, text: string)
    requires cfg.parse(text).Some? && cfg.parse(text).value.alg == HS256
    ensures !NotExpired(cfg.parse(text).value.claims.expiresAt, now) ==>
      ValidateAccessJWT(cfg, now, text).err == Some(Expired)
      && ValidateRefreshJWT(cfg, now, text).err == Some(Expired)
    ensures NotExpired(cfg.parse(text).value.claims.expiresAt, now)
            && cfg.parse(text).value.tag != cfg.mac(cfg.accessSecret, HS256, cfg.parse(text).value.claims) ==>
      ValidateAccessJWT(cfg, now, text).err == Some(SignatureInvalid)
    ensures NotExpired(cfg.parse(text).value.claims.expiresAt, now)
            && cfg.parse(text).value.tag != cfg.mac(cfg.refreshSecret, HS256, cfg.parse(text).value.claims) ==>
      ValidateRefreshJWT(cfg, now, text).err == Some(SignatureInvalid)
  {
  }

  /** A refresh token issued at `t` validates, at any `now` up to
      `t + 604800`, to the user id with the expiry set to `t + 604800`. */
  lemma RefreshRoundTrip(cfg: Config, c: RefreshClaims, t: int, now: int, text: string)
    requires CodecRoundTrip(cfg)
    requires GenerateRefreshToken(cfg, t, c) == Success(text)
    requires now <= t + 604800
    ensures ValidateRefreshJWT(cfg, now, text) == Validation(true, RefreshClaims(c.userId, t + 604800), None)
  {
  }

  /** From second `t + 604801` on, the same refresh token is rejected as
      expired. */
  lemma RefreshExpires(cfg: Config, c: RefreshClaims, t: int, now: int, text: string)
    requires CodecRoundTrip(cfg)
    requires GenerateRefreshToken(cfg, t, c) == Success(text)
    requires now > t + 604800
    ensures !ValidateRefreshJWT(cfg, now, text).isValid
    ensures ValidateRefreshJWT(cfg, now, text).err == Some(Expired)
  {
  }

  /** A token declaring any algorithm other than HS256 is refused by the
      key function: the outcome is `UnexpectedSigningMethod` whatever the
      clock reads and whichever secrets are configured, so no key is used. */
  lemma AlgorithmGate(cfg: Config, now: int, text: string, otherAccess: Secret, otherRefresh: Secret)
    requires cfg.parse(text).Some? && cfg.parse(text).value.alg != HS256
    ensures ValidateAccessJWT(cfg, now, text).err == Some(UnexpectedSigningMethod)
    ensures ValidateRefreshJWT(cfg, now, text).err == Some(UnexpectedSigningMethod)
    ensures ValidateAccessJWT(cfg, now, text)
         == ValidateAccessJWT(cfg.(accessSecret := otherAccess), now, text)
    ensures ValidateRefreshJWT(cfg, now, text)
         == ValidateRefreshJWT(cfg.(refreshSecret := otherRefresh), now, text)
  {
  }

  /** With separated secrets, a token tagged under the refresh secret never
      passes the access validator, and a token tagged under the access
      secret never passes the refresh validator. */
  lemma SecretSeparation(cfg: Config, now: int, text: string)
    requires SecretsSeparated(cfg)
    requires cfg.parse(text).Some?
    ensures cfg.parse(text).value.tag == cfg.mac(cfg.refreshSecret, cfg.parse(text).value.alg, cfg.parse(text).value.claims)
      ==> !ValidateAccessJWT(cfg, now, text).isValid
    ensures cfg.parse(text).value.tag == cfg.mac(cfg.accessSecret, cfg.parse(text).value.alg, cfg.parse(text).value.claims)
      ==> !ValidateRefreshJWT(cfg, now, text).isValid
  {
    var t := cfg.parse(text).value;
    assert cfg.mac(cfg.accessSecret, t.alg, t.claims) != cfg.mac(cfg.refreshSecret, t.alg, t.claims);
  }

  /** In particular, the refresh token of a pair is never accepted as an
      access token, and the access token never as a refresh token. */
  lemma PairTokensNotInterchangeable(cfg: Config, t: int, now: int, data: Claims)
    requires CodecRoundTrip(cfg) && SecretsSeparated(cfg)
    requires GetTokenPair(cfg, t, data).err.None?
    ensures !ValidateAccessJWT(cfg, now, GetTokenPair(cfg, t, data).refresh).isValid
    ensures !ValidateRefreshJWT(cfg, now, GetTokenPair(cfg, t, data).access).isValid
  {
    var pair := GetTokenPair(cfg, t, data);
    SecretSeparation(cfg, now, pair.refresh);
    SecretSeparation(cfg, now, pair.access);
  }

  /** The refresh token of a pair carries the user id, no permissions, and
      the refresh lifetime; it does not depend on the permission snapshot. */
  lemma PairRefreshIsMinimal(cfg: Config, t: int, data: Claims, perms: seq<string>)
    requires CodecRoundTrip(cfg)
    requires GetTokenPair(cfg, t, data).err.None?
    ensures cfg.parse(GetTokenPair(cfg, t, data).refresh).Some?
    ensures cfg.parse(GetTokenPair(cfg, t, data).refresh).value.claims
         == Claims(data.userId, [], t + 604800)
    ensures GetTokenPair(cfg, t, data.(permissions := perms)).err.None? ==>
      GetTokenPair(cfg, t, data.(permissions := perms)).refresh == GetTokenPair(cfg, t, data).refresh
  {
  }

  /** The token is the field between the first and the second space, or
      after the first space when there is no second: for a header
      `<scheme> <token><tail>` with space-free `scheme` and `token` and a
      `tail` that is empty or starts with a space, the result is `token`. So
      `Bearer a b` yields `a` and `Bearer  tok` yields the empty string. */
  lemma BearerHeaderYieldsToken(scheme: string, token: string, tail: string)
    requires ' ' !in scheme && ' ' !in token
    requires tail == "" || tail[0] == ' '
    ensures GetTokenFromHeader(scheme + " " + token + tail) == Returns(token)
  {
    GoStrings.SplitSecondField(scheme, token, tail, ' ');
  }

  /** Two concrete headers: a second space ends the token, and a doubled
      space yields the empty token (which then fails validation). */
  lemma HeaderFieldExamples()
    ensures GetTokenFromHeader("Bearer a b") == Returns("a")
    ensures GetTokenFromHeader("Bearer  tok") == Returns("")
  {
    BearerHeaderYieldsToken("Bearer", "a", " b");
    assert "Bearer a b" == "Bearer" + " " + "a" + " b";
    BearerHeaderYieldsToken("Bearer", "", " tok");
    assert "Bearer  tok" == "Bearer" + " " + "" + " tok";
  }

  /** A configuration under which the header `Bearer tok` carries a valid
      access token with an empty permission list. */
  function WitnessConfig(): (cfg: Config)
    ensures cfg.parse("tok") == Some(Token(HS256, Claims("u", [], 10), "a"))
    ensures cfg.mac(cfg.accessSecret, HS256, Claims("u", [], 10)) == "a"
  {
    Config("a", "r",
           (k: Secret, a: Alg, c: Claims) => k,
           (t: Token) => Success("tok"),
           (s: string) => if s == "tok" then Some(Token(HS256, Claims("u", [], 10), "a")) else None,
           (s: string) => ZeroClaims)
  }

  /** `DoesTokenContainPermission` grants a permission the token does not
      list: at time 0, header `Bearer tok`, the token lists nothing, yet
      asking for `admin` gives true. The intended check gives false. */
  lemma PermissionCheckGrantsAbsentPermission()
    ensures ValidateAccessJWT(WitnessConfig(), 0, "tok").isValid
    ensures "admin" !in ValidateAccessJWT(WitnessConfig(), 0, "tok").claims.permissions
    ensures DoesTokenContainPermission(WitnessConfig(), 0, "admin", "Bearer tok") == Returns(true)
  {
    BearerHeaderYieldsToken("Bearer", "tok", "");
    assert "Bearer tok" == "Bearer" + " " + "tok" + "";
  }

  /** For every valid token, as written, the answer is true whatever
      permission is asked for. */
  lemma PermissionCheckIgnoresList(cfg: Config, now: int, p: string, q: string, header: string)
    requires ' ' in header
    ensures DoesTokenContainPermission(cfg, now, p, header) == DoesTokenContainPermission(cfg, now, q, header)
  {
  }
}
