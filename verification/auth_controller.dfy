/** The `/auth` endpoints: the login decision tree and the token refresh
    flow. Persistence lookups and the password-hash check are collaborators
    supplied as functions; only their results matter. */
module AuthController {
  import opened Wrappers
  import opened Jwt
  import opened Tokens
  import opened Http

  /** The bound login body. */
  datatype LoginRequest = LoginRequest(username: string, email: string, password: string)

  /** A lookup failure: the entity layer's not-found error (with its
      message) or any other storage error. */
  datatype LookupError = NotFound(message: string) | StorageError(message: string)

  /** What a login lookup yields: the stored password hash and the claims
      to put in the access token. */
  datatype AuthData = AuthData(passwordHash: string, claims: Claims)

  /** The collaborators the handlers consult. */
  datatype Services = Services(
    byUsername: string -> Result<AuthData, LookupError>,
    byEmail: string -> Result<AuthData, LookupError>,
    byUuid: string -> Result<Claims, LookupError>,
    verifyHash: (string, string) -> bool)

  /** The lookup the login handler performs: by username when one is
      given, else by email when one is given, else none. */
  function LoginLookup(svc: Services, req: LoginRequest): (r: Option<Result<AuthData, LookupError>>)
    ensures req.username != "" ==> r == Some(svc.byUsername(req.username))
    ensures req.username == "" && req.email != "" ==> r == Some(svc.byEmail(req.email))
    ensures r.None? <==> req.username == "" && req.email == ""
  {
    if req.username != "" then Some(svc.byUsername(req.username))
    else if req.email != "" then Some(svc.byEmail(req.email))
    else None
  }

  /** `userLoginHandler`. */
  function UserLoginHandler(cfg: Config, now: int, svc: Services, req: LoginRequest): (r: Reply)
    ensures r.status in {200, 400, 401, 404, 500}
    ensures r.status == 400 <==> req.username == "" && req.email == ""
    ensures var l := LoginLookup(svc, req);
      (r.status == 404 <==> (l.Some? && l.value.Failure? && l.value.error.NotFound?))
      && (r.status == 500 <==> (l.Some? && l.value.Failure? && l.value.error.StorageError?))
      && (r.status == 401 <==> (l.Some? && l.value.Success? && !svc.verifyHash(req.password, l.value.value.passwordHash)))
      && (r.status == 200 <==> (l.Some? && l.value.Success? && svc.verifyHash(req.password, l.value.value.passwordHash)))
    ensures r.status == 200 ==>
      var pair := GetTokenPair(cfg, now, LoginLookup(svc, req).value.value.claims);
      r.body == map["accessToken" := pair.access, "refreshToken" := pair.refresh]
    ensures r.status != 200 ==> "accessToken" !in r.body && "refreshToken" !in r.body
  {
    if req.username != "" then AfterLookup(cfg, now, svc, req.password, svc.byUsername(req.username))
    else if req.email != "" then AfterLookup(cfg, now, svc, req.password, svc.byEmail(req.email))
    else Reply(StatusBadRequest, map["message" := "either username or email must be specified"])
  }

  /** The rest of the login handler once the lookup has answered: map its
      error to 404 or 500, then check the password, then issue the pair. */
  function AfterLookup(cfg: Config, now: int, svc: Services, password: string,
                       lookup: Result<AuthData, LookupError>): Reply
  {
    match lookup
    case Failure(NotFound(message)) => Reply(StatusNotFound, map["message" := message])
    case Failure(StorageError(_)) => InternalError
    case Success(data) =>
      if !svc.verifyHash(password, data.passwordHash) then Unauthorised
      else
        // a token-generation error is dropped: the reply is 200 either way
        var pair := GetTokenPair(cfg, now, data.claims);
        Reply(StatusOK, map["accessToken" := pair.access, "refreshToken" := pair.refresh])
  }

  /** The user id the refresh handler looks up: the `UserId` the refresh
      validator decoded, whether or not the token was valid, and partly
      decoded when the text is malformed. */
  function RefreshSubject(cfg: Config, now: int, token: string): (id: string)
    ensures cfg.parse(token).Some? ==> id == cfg.parse(token).value.claims.userId
    ensures cfg.parse(token).None? ==> id == cfg.partial(token).userId
  {
    ValidateRefreshJWT(cfg, now, token).claims.userId
  }

  /** `tokenRefreshHandler`: re-fetch the user's claims by the refresh
      token's user id and mint a new access token from them. */
  function TokenRefreshHandler(cfg: Config, now: int, svc: Services, req: Request): (r: Run<Reply>)
    ensures r.Panics? <==> ' ' !in Authorization(req)
    ensures r.Returns? ==>
      var id := RefreshSubject(cfg, now, GetTokenFromHeader(Authorization(req)).value);
      (r.value.status == 500 <==> svc.byUuid(id).Failure?)
      && (r.value.status == 500 ==> r.value == InternalError)
      && (r.value.status != 500 ==>
            r.value.status == 200
            && r.value.body.Keys == {"accessToken"}
            && (GenerateAccessToken(cfg, now, svc.byUuid(id).value).Success? ==>
                  r.value.body["accessToken"] == GenerateAccessToken(cfg, now, svc.byUuid(id).value).value)
            && (GenerateAccessToken(cfg, now, svc.byUuid(id).value).Failure? ==>
                  r.value.body["accessToken"] == ""))
  {
    match GetTokenFromHeader(Authorization(req))
    case Panics => Panics
    case Returns(token) =>
      // the validation verdict is discarded; only the decoded claims are used
      var v := ValidateRefreshJWT(cfg, now, token);
      match svc.byUuid(v.claims.userId)
      case Failure(_) => Returns(InternalError)
      case Success(data) =>
        var access := GenerateAccessToken(cfg, now, data);
        Returns(Reply(StatusOK, map["accessToken" := if access.Success? then access.value else ""]))
  }
}

/** Properties of the `/auth` endpoints. */
module AuthControllerProperties {
  import opened Wrappers
  import opened Jwt
  import opened Tokens
  import opened Http
  import opened AuthController
  import TokenProperties

  /** With neither identifier the reply is 400 whatever the collaborators,
      configuration and clock: no lookup and no hash check takes place. */
  lemma NoIdentifierConsultsNothing(cfg1: Config, cfg2: Config, now1: int, now2: int,
                                    svc1: Services, svc2: Services, req: LoginRequest)
    requires req.username == "" && req.email == ""
    ensures UserLoginHandler(cfg1, now1, svc1, req) == UserLoginHandler(cfg2, now2, svc2, req)
    ensures UserLoginHandler(cfg1, now1, svc1, req).status == 400
  {
  }

  /** A non-empty username wins: the email field and the email lookup have
      no influence on the reply. */
  lemma UsernameTakesPrecedence(cfg: Config, now: int, svc: Services, req: LoginRequest,
                                otherEmail: string, otherByEmail: string -> Result<AuthData, LookupError>)
    requires req.username != ""
    ensures UserLoginHandler(cfg, now, svc, req)
         == UserLoginHandler(cfg, now, svc.(byEmail := otherByEmail), req.(email := otherEmail))
  {
  }

  /** Without a username the email is used, and the username lookup has no
      influence on the reply. */
  lemma EmailUsedOnlyWithoutUsername(cfg: Config, now: int, svc: Services, req: LoginRequest,
                                     otherByUsername: string -> Result<AuthData, LookupError>)
    requires req.username == ""
    ensures UserLoginHandler(cfg, now, svc, req)
         == UserLoginHandler(cfg, now, svc.(byUsername := otherByUsername), req)
  {
  }

  /** A failed lookup is decided before the password: the reply does not
      depend on the password or on the hash check, and is never 401. */
  lemma LookupErrorBeforePassword(cfg: Config, now: int, svc: Services, req: LoginRequest,
                                  otherPassword: string, otherVerify: (string, string) -> bool)
    requires LoginLookup(svc, req).Some? && LoginLookup(svc, req).value.Failure?
    ensures UserLoginHandler(cfg, now, svc, req)
         == UserLoginHandler(cfg, now, svc.(verifyHash := otherVerify), req.(password := otherPassword))
    ensures UserLoginHandler(cfg, now, svc, req).status != 401
  {
  }

  /** A password mismatch gives exactly the `unauthorised` reply: no token
      is handed out. */
  lemma WrongPasswordGetsNoTokens(cfg: Config, now: int, svc: Services, req: LoginRequest)
    requires LoginLookup(svc, req).Some? && LoginLookup(svc, req).value.Success?
    requires !svc.verifyHash(req.password, LoginLookup(svc, req).value.value.passwordHash)
    ensures UserLoginHandler(cfg, now, svc, req) == Unauthorised
  {
  }

  /** A token-generation failure after a correct password is swallowed:
      the reply is still 200, carrying two empty strings. */
  lemma TokenErrorStill200(cfg: Config, now: int, svc: Services, req: LoginRequest)
    requires LoginLookup(svc, req).Some? && LoginLookup(svc, req).value.Success?
    requires svc.verifyHash(req.password, LoginLookup(svc, req).value.value.passwordHash)
    requires GetTokenPair(cfg, now, LoginLookup(svc, req).value.value.claims).err.Some?
    ensures UserLoginHandler(cfg, now, svc, req) == Reply(200, map["accessToken" := "", "refreshToken" := ""])
  {
  }

  /** A successful login hands out an access token that validates, until
      it expires, to the looked-up claims, and a refresh token that
      validates to the user id alone. */
  lemma LoginTokensValidate(cfg: Config, now: int, later: int, svc: Services, req: LoginRequest)
    requires CodecRoundTrip(cfg)
    requires LoginLookup(svc, req).Some? && LoginLookup(svc, req).value.Success?
    requires svc.verifyHash(req.password, LoginLookup(svc, req).value.value.passwordHash)
    requires GetTokenPair(cfg, now, LoginLookup(svc, req).value.value.claims).err.None?
    requires later <= now + 900
    ensures UserLoginHandler(cfg, now, svc, req).status == 200
    ensures var data := LoginLookup(svc, req).value.value.claims;
      ValidateAccessJWT(cfg, later, UserLoginHandler(cfg, now, svc, req).body["accessToken"])
        == Validation(true, data.(expiresAt := now + 900), None)
      && ValidateRefreshJWT(cfg, later, UserLoginHandler(cfg, now, svc, req).body["refreshToken"])
        == Validation(true, RefreshClaims(data.userId, now + 604800), None)
  {
    var data := LoginLookup(svc, req).value.value.claims;
    var pair := GetTokenPair(cfg, now, data);
    TokenProperties.AccessRoundTrip(cfg, data, now, later, pair.access);
    TokenProperties.RefreshRoundTrip(cfg, RefreshClaims(data.userId, 0), now, later, pair.refresh);
  }

  /** The refresh reply depends on the lookup only at the token's subject. */
  lemma RefreshLooksUpSubject(cfg: Config, now: int, svc1: Services, svc2: Services, req: Request)
    requires ' ' in Authorization(req)
    requires var id := RefreshSubject(cfg, now, GetTokenFromHeader(Authorization(req)).value);
      svc1.byUuid(id) == svc2.byUuid(id)
    ensures TokenRefreshHandler(cfg, now, svc1, req) == TokenRefreshHandler(cfg, now, svc2, req)
  {
  }

  /** The handler ignores the refresh token's verdict: two tokens naming the
      same user get the same reply even if one is expired, forged or of the
      wrong algorithm. Rejecting those is left to the refresh middleware. */
  lemma RefreshIgnoresVerdict(cfg: Config, now: int, svc: Services, req1: Request, req2: Request)
    requires ' ' in Authorization(req1) && ' ' in Authorization(req2)
    requires RefreshSubject(cfg, now, GetTokenFromHeader(Authorization(req1)).value)
          == RefreshSubject(cfg, now, GetTokenFromHeader(Authorization(req2)).value)
    ensures TokenRefreshHandler(cfg, now, svc, req1) == TokenRefreshHandler(cfg, now, svc, req2)
  {
  }

  /** A refresh token the library reports as malformed still names a
      subject: the user id the decoder filled before the type error. The
      handler looks that user up and, when the lookup succeeds, answers 200
      with an access token minted from that user's claims. */
  lemma MalformedTokenStillNamesSubject(cfg: Config, now: int, svc: Services, req: Request, data: Claims)
    requires ' ' in Authorization(req)
    requires cfg.parse(GetTokenFromHeader(Authorization(req)).value).None?
    requires svc.byUuid(cfg.partial(GetTokenFromHeader(Authorization(req)).value).userId) == Success(data)
    ensures !ValidateRefreshJWT(cfg, now, GetTokenFromHeader(Authorization(req)).value).isValid
    ensures TokenRefreshHandler(cfg, now, svc, req).Returns?
    ensures TokenRefreshHandler(cfg, now, svc, req).value.status == 200
    ensures GenerateAccessToken(cfg, now, data).Success? ==>
      TokenRefreshHandler(cfg, now, svc, req).value.body["accessToken"] == GenerateAccessToken(cfg, now, data).value
  {
  }

  /** A token-generation failure during a refresh is swallowed as in the
      login handler: the reply is 200 with an empty access token. */
  lemma RefreshTokenErrorStill200(cfg: Config, now: int, svc: Services, req: Request)
    requires ' ' in Authorization(req)
    requires var id := RefreshSubject(cfg, now, GetTokenFromHeader(Authorization(req)).value);
      svc.byUuid(id).Success? && GenerateAccessToken(cfg, now, svc.byUuid(id).value).Failure?
    ensures TokenRefreshHandler(cfg, now, svc, req) == Returns(Reply(200, map["accessToken" := ""]))
  {
  }

  /** A successful refresh mints the access token from the re-fetched
      claims, permissions included, not from the refresh token. */
  lemma RefreshUsesFetchedClaims(cfg: Config, now: int, later: int, svc: Services, req: Request, data: Claims)
    requires CodecRoundTrip(cfg)
    requires ' ' in Authorization(req)
    requires svc.byUuid(RefreshSubject(cfg, now, GetTokenFromHeader(Authorization(req)).value)) == Success(data)
    requires GenerateAccessToken(cfg, now, data).Success?
    requires later <= now + 900
    ensures TokenRefreshHandler(cfg, now, svc, req).Returns?
    ensures TokenRefreshHandler(cfg, now, svc, req).value.status == 200
    ensures ValidateAccessJWT(cfg, later, TokenRefreshHandler(cfg, now, svc, req).value.body["accessToken"])
         == Validation(true, data.(expiresAt := now + 900), None)
  {
    TokenProperties.AccessRoundTrip(cfg, data, now, later, GenerateAccessToken(cfg, now, data).value);
  }
}
