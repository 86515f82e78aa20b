/** `AccessJWTAuth`, the middleware guarding protected routes: it looks at
    the `Authorization` header and either answers 401 itself or hands the
    untouched request to the next handler. */
module AccessGate {
  import opened Wrappers
  import opened Jwt
  import opened Tokens
  import opened Http

  /** What the gate decides for a header value. `Crash` is the panic raised
      when a non-empty header has no space. */
  datatype Decision = Reject | CallNext | Crash

  /** The gate's decision, as written. */
  function Decide(cfg: Config, now: int, header: string): (d: Decision)
    ensures header == "" ==> d == Reject
    ensures d == Crash <==> header != "" && ' ' !in header
    ensures d == CallNext <==>
      header != "" && ' ' in header && Accepted(cfg, cfg.accessSecret, now, GetTokenFromHeader(header).value)
  {
    if header == "" then Reject
    else
      match GetTokenFromHeader(header)
      case Panics => Crash
      case Returns(token) =>
        var v := ValidateAccessJWT(cfg, now, token);
        if !v.isValid || v.err.Some? then Reject else CallNext
  }

  /** `AccessJWTAuth(next)` applied to a request, as written: a rejection is
      the one `unauthorised` reply; acceptance is `next` run once on the
      same request, its reply returned unchanged. */
  function AccessJWTAuth(cfg: Config, now: int, next: Request -> Reply, req: Request): (r: Run<Reply>)
    ensures Authorization(req) == "" ==> r == Returns(Unauthorised)
    ensures r.Panics? <==> Authorization(req) != "" && ' ' !in Authorization(req)
    ensures r.Returns? ==> r.value == Unauthorised || r.value == next(req)
    ensures Decide(cfg, now, Authorization(req)) == CallNext ==> r == Returns(next(req))
    ensures Decide(cfg, now, Authorization(req)) == Reject ==> r == Returns(Unauthorised)
  {
    match Decide(cfg, now, Authorization(req))
    case Reject => Returns(Unauthorised)
    case Crash => Panics
    case CallNext => Returns(next(req))
  }

  /** Reference definition: the header's second field is an access token
      the validator accepts. */
  ghost predicate CarriesValidAccessToken(cfg: Config, now: int, header: string)
  {
    match BearerToken(header)
    case None => false
    case Some(token) => Accepted(cfg, cfg.accessSecret, now, token)
  }

  /** The gate as evidently intended: a header with no token field is
      rejected like any other failure instead of panicking. */
  function AccessJWTAuthChecked(cfg: Config, now: int, next: Request -> Reply, req: Request): (r: Reply)
    ensures CarriesValidAccessToken(cfg, now, Authorization(req)) ==> r == next(req)
    ensures !CarriesValidAccessToken(cfg, now, Authorization(req)) ==> r == Unauthorised
  {
    var header := Authorization(req);
    if header == "" then Unauthorised
    else
      match BearerToken(header)
      case None => Unauthorised
      case Some(token) =>
        if ValidateAccessJWT(cfg, now, token).isValid then next(req) else Unauthorised
  }
}

/** Properties of the access gate. */
module AccessGateProperties {
  import opened Wrappers
  import opened Jwt
  import opened Tokens
  import opened Http
  import opened AccessGate
  import TokenProperties

  /** A rejected request never reaches `next`: the reply is the same for any
      two handlers. */
  lemma RejectionIgnoresNext(cfg: Config, now: int, next1: Request -> Reply, next2: Request -> Reply, req: Request)
    requires Decide(cfg, now, Authorization(req)) != CallNext
    ensures AccessJWTAuth(cfg, now, next1, req) == AccessJWTAuth(cfg, now, next2, req)
  {
  }

  /** Every rejection, whatever its cause, is the same reply. */
  lemma RejectionsIndistinguishable(cfg: Config, now: int, next: Request -> Reply, req1: Request, req2: Request)
    requires Decide(cfg, now, Authorization(req1)) == Reject
    requires Decide(cfg, now, Authorization(req2)) == Reject
    ensures AccessJWTAuth(cfg, now, next, req1) == AccessJWTAuth(cfg, now, next, req2) == Returns(Unauthorised)
  {
  }

  /** A freshly issued access token, presented as `Bearer <token>` before it
      expires, lets the request through to `next`. */
  lemma IssuedTokenPasses(cfg: Config, c: Claims, t: int, now: int, token: string,
                          next: Request -> Reply, req: Request)
    requires CodecRoundTrip(cfg)
    requires GenerateAccessToken(cfg, t, c) == Success(token)
    requires now <= t + 900
    requires Authorization(req) == "Bearer " + token
    ensures AccessJWTAuth(cfg, now, next, req) == Returns(next(req))
  {
    assert "Bearer " + token == "Bearer" + " " + token + "";
    TokenProperties.BearerHeaderYieldsToken("Bearer", token, "");
    TokenProperties.AccessRoundTrip(cfg, c, t, now, token);
  }

  /** The same token presented after its expiry is rejected. */
  lemma ExpiredTokenRejected(cfg: Config, c: Claims, t: int, now: int, token: string,
                             next: Request -> Reply, req: Request)
    requires CodecRoundTrip(cfg)
    requires GenerateAccessToken(cfg, t, c) == Success(token)
    requires now > t + 900
    requires Authorization(req) == "Bearer " + token
    ensures AccessJWTAuth(cfg, now, next, req) == Returns(Unauthorised)
  {
    assert "Bearer " + token == "Bearer" + " " + token + "";
    TokenProperties.BearerHeaderYieldsToken("Bearer", token, "");
    TokenProperties.AccessExpires(cfg, c, t, now, token);
  }

  /** As written, a non-empty header with no space (here `abc`) panics
      instead of producing 401. */
  lemma HeaderWithoutSpacePanics(cfg: Config, now: int, next: Request -> Reply)
    ensures AccessJWTAuth(cfg, now, next, Request(map["Authorization" := "abc"])) == Panics
  {
    var req := Request(map["Authorization" := "abc"]);
    assert Authorization(req) == "abc";
    assert ' ' !in "abc";
  }

  /** The intended gate agrees with the gate as written wherever the latter
      does not panic, and answers 401 where it does. */
  lemma CheckedGateAgrees(cfg: Config, now: int, next: Request -> Reply, req: Request)
    ensures AccessJWTAuth(cfg, now, next, req).Returns? ==>
      AccessJWTAuthChecked(cfg, now, next, req) == AccessJWTAuth(cfg, now, next, req).value
    ensures AccessJWTAuth(cfg, now, next, req).Panics? ==>
      AccessJWTAuthChecked(cfg, now, next, req) == Unauthorised
  {
  }
}
