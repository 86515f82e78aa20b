/** The JSON Web Token machinery the token layer relies on (RFC 7519,
    signed as in RFC 7515), kept abstract: the HMAC and the compact
    serialisation are parameters of a `Config`, and the library's parse
    step is written out in the order it performs its checks. */
module Jwt {
  import opened Wrappers

  type Secret = string
  type Tag = string

  /** The `alg` header parameter (section 4.1.1 of RFC 7515). The values
      `HS256` and `none` are always represented by `HS256` and `AlgNone`;
      `OtherAlg(name)` stands for every other name, and is never used with
      those two. */
  datatype Alg = HS256 | AlgNone | OtherAlg(name: string)

  /** The claims object this backend signs: the user id, the permission
      snapshot and the registered `exp` claim (section 4.1.4 of RFC 7519),
      in Unix seconds. A refresh token leaves `permissions` empty. */
  datatype Claims = Claims(userId: string, permissions: seq<string>, expiresAt: int)

  /** Go's zero value of the claims struct: what a decode that fills no
      field leaves behind. */
  const ZeroClaims := Claims("", [], 0)

  /** A signed token: header algorithm, claims and MAC tag (the three
      segments of the compact serialisation, section 7.1 of RFC 7515). */
  datatype Token = Token(alg: Alg, claims: Claims, tag: Tag)

  /** Process-wide configuration, fixed at start-up: the two signing secrets,
      the MAC (HMAC-SHA256 in the deployed system, uninterpreted here), and
      the compact serialisation in both directions. Serialising may fail
      (`SignedString` returns an error). `parse` returns `None` for text the
      library reports as malformed; `partial` gives the claims such text
      still leaves in the caller's struct, since the JSON decoder fills
      every field it can before reporting a type error (`ZeroClaims` when
      it fills none). */
  datatype Config = Config(
    accessSecret: Secret,
    refreshSecret: Secret,
    mac: (Secret, Alg, Claims) -> Tag,
    serialise: Token -> Result<string, string>,
    parse: string -> Option<Token>,
    partial: string -> Claims)

  /** Assumption on the serialisation: what is serialised parses back to
      the same token, and the text holds no space (it is base64url segments
      joined by dots). */
  ghost predicate CodecRoundTrip(cfg: Config)
  {
    forall t: Token :: cfg.serialise(t).Success? ==>
      cfg.parse(cfg.serialise(t).value) == Some(t) && ' ' !in cfg.serialise(t).value
  }

  /** Assumption on the MAC and the secrets: no tag computed under the
      access secret equals the tag computed under the refresh secret for
      the same header and claims. It implies the secrets differ. */
  ghost predicate SecretsSeparated(cfg: Config)
  {
    forall a: Alg, c: Claims :: cfg.mac(cfg.accessSecret, a, c) != cfg.mac(cfg.refreshSecret, a, c)
  }

  /** The reasons the library (or the key function handed to it) gives for
      rejecting a token. */
  datatype JwtError =
    | Malformed
    | UnexpectedSigningMethod
    | Expired
    | SignatureInvalid
    | SigningFailed(reason: string)

  /** The library's expiry check (golang-jwt v3, `verifyExp`): a token is
      live up to and including its `exp` second. Section 4.1.4 of RFC 7519
      asks for the current time to be strictly before `exp`; the library's
      inclusive test is the one modelled. */
  predicate NotExpired(expiresAt: int, now: int)
  {
    now <= expiresAt
  }

  /** What `jwt.ParseWithClaims` leaves behind: the claims struct as the
      decoder filled it (also when a check failed, and partly when the
      payload was malformed) and an error, if any. The library may combine
      an expiry failure and a bad tag into one error; the model reports
      expiry ahead of a bad tag. */
  datatype Parsed = Parsed(claims: Claims, err: Option<JwtError>)

  /** `jwt.ParseWithClaims(text, &claims, keyFunc)`: decode, ask the key
      function for a key (it sees the header and may refuse), check expiry,
      then check the tag under the key it supplied. */
  function ParseWithClaims(cfg: Config, now: int, text: string,
                           keyFunc: Token -> Result<Secret, JwtError>): (r: Parsed)
    ensures cfg.parse(text).None? ==> r == Parsed(cfg.partial(text), Some(Malformed))
    ensures cfg.parse(text).Some? ==> r.claims == cfg.parse(text).value.claims
    ensures r.err.None? <==>
      (cfg.parse(text).Some?
       && keyFunc(cfg.parse(text).value).Success?
       && NotExpired(cfg.parse(text).value.claims.expiresAt, now)
       && cfg.parse(text).value.tag
          == cfg.mac(keyFunc(cfg.parse(text).value).value, cfg.parse(text).value.alg, cfg.parse(text).value.claims))
    ensures cfg.parse(text).Some? && keyFunc(cfg.parse(text).value).Failure? ==>
      r.err == Some(keyFunc(cfg.parse(text).value).error)
    ensures cfg.parse(text).Some? && keyFunc(cfg.parse(text).value).Success?
            && !NotExpired(cfg.parse(text).value.claims.expiresAt, now) ==>
      r.err == Some(Expired)
    ensures cfg.parse(text).Some? && keyFunc(cfg.parse(text).value).Success?
            && NotExpired(cfg.parse(text).value.claims.expiresAt, now)
            && cfg.parse(text).value.tag
               != cfg.mac(keyFunc(cfg.parse(text).value).value, cfg.parse(text).value.alg, cfg.parse(text).value.claims) ==>
      r.err == Some(SignatureInvalid)
  {
    match cfg.parse(text)
    case None => Parsed(cfg.partial(text), Some(Malformed))
    case Some(t) =>
      match keyFunc(t)
      case Failure(e) => Parsed(t.claims, Some(e))
      case Success(key) =>
        if !NotExpired(t.claims.expiresAt, now) then Parsed(t.claims, Some(Expired))
        else if t.tag != cfg.mac(key, t.alg, t.claims) then Parsed(t.claims, Some(SignatureInvalid))
        else Parsed(t.claims, None)
  }
}
