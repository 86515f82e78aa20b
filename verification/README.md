# Access control of the panel backend, in Dafny

This project models the access-control core of the `panel` backend, a Go
service built on Echo and the ent entity framework:

- **Token layer** (`util/token.go`). It issues HS256-signed access tokens,
  which live 15 minutes and carry a user id and a permission snapshot. It
  also issues refresh tokens, which live one week and carry only the user
  id. It reads the token out of the `Authorization` header, validates either
  kind, and checks a permission.
- **Access middleware** (`middleware/jwt_access_auth.go`). It answers 401 or
  hands the request, untouched, to the next handler.
- **Auth controller** (`controller/auth_controller.go`). This covers the
  login decision tree (400/404/500/401/200) and the refresh flow.
- **Mutation builders** (`ent/mutation.go`). These are the generated
  `RoleMutation` and `UserMutation` records of pending field and edge
  changes, with their typed and name-based APIs.

The JWT library is kept abstract. A `Jwt.Config` holds the two secrets,
the MAC (HMAC-SHA256 in the deployed system) and the compact serialisation
(section 7.1 of RFC 7515) as function values. Properties that depend on
them are stated under named assumptions:

- `Jwt.CodecRoundTrip`: a serialised token parses back to itself and
  contains no space.
- `Jwt.SecretsSeparated`: the access and refresh secrets never produce the
  same tag.
- `Jwt.NotExpired`: a token is live up to and including its `exp` second.
  This is the inclusive test of the JWT library the code uses (golang-jwt
  v3). Section 4.1.4 of RFC 7519 asks for the current time to be strictly
  before `exp`, so the two differ only in the `exp` second itself.

`Jwt.ParseWithClaims` follows the library's order of checks: decode, then
the key function (which sees the `alg` header), then expiry, then the tag.
It reports the decoded claims even when a later check fails. Text that
does not decode is the malformed error, and the claims are then whatever
fields the JSON decoder could fill (`Jwt.Config.partial`), none for text
that is not JSON. A payload
such as `{"userId":"victim","exp":"x"}` still yields the user id
`victim`.

A Go panic is a value: `Wrappers.Run` is either `Returns(v)` or `Panics`.
The server that mounts these handlers is not part of this model, so
nothing is assumed about recovery. A recovered panic becomes a 500 reply
or a dropped connection, never a 401.

The database lookups and the password-hash check are function-valued
fields of `AuthController.Services`. "Nothing was looked up" is stated as "the reply
is the same whatever the lookups return". The clock is the parameter `now`
(Unix seconds).

A mutation is an immutable datatype. Every Go method that mutates returns
the new record, and the name-based calls also return the error
(`Mutations.Applied`). The operation kind is the ent bit set (`bv8`, with
`Is` meaning the two kinds share a bit). Column names and their order
follow `ent/migrate/schema.go`.

Files:

- `wrappers.dfy`: `Option`, `Result`, `Run`.
- `go_strings.dfy`: Go's `strings.Split` on one character, with its
  inverse `Join`.
- `http.dfy`: requests, replies, status codes, the two fixed error replies.
- `jwt.dfy`: the JWT model described above.
- `tokens.dfy` and `token_properties.dfy`: the token layer and its
  properties.
- `access_gate.dfy`: the access middleware and its properties.
- `auth_controller.dfy`: the two handlers and their properties.
- `mutation_base.dfy`, `role_mutation.dfy`, `user_mutation.dfy`: the ent
  mutation builders.

## Model

| member | source | states |
|---|---|---|
| GoStrings.Split | util/token.go:62 | `strings.Split` on a one-character separator yields one more piece than there are separators; no piece contains the separator; joining the pieces gives back the input |
| GoStrings.SplitJoin | util/token.go:62 | splitting a join of separator-free pieces gives back exactly those pieces (the inverse of `Split`'s join property) |
| GoStrings.SplitSecondField | util/token.go:62 | the second piece is the text between the first separator and the next separator or the end |
| Http.Authorization | middleware/jwt_access_auth.go:13 | a missing `Authorization` header reads as the empty string, like `Header.Get` |
| Jwt.ParseWithClaims | util/token.go:70-75 | text that does not parse is the malformed error, with the partly filled claims; otherwise the parsed claims are reported; no error iff it parses, the key function accepts its header, it is not expired and its tag matches under the key supplied; a key-function refusal is the reported error; after the key function accepts, an expired token is the expiry error and an unexpired one with a wrong tag the bad-signature error |
| Tokens.MintAccess | util/token.go:15-19 | the access token is HS256, keeps the caller's user id and permissions, expires 900 s after issue, and is tagged under the access secret |
| Tokens.MintRefresh | util/token.go:29-33 | the refresh token is HS256, carries the user id with no permissions, expires 604800 s after issue, and is tagged under the refresh secret |
| Tokens.Sign | util/token.go:20-23 | signing succeeds iff serialisation does; under the codec assumption the text parses back to the token and has no space |
| Tokens.GenerateAccessToken | util/token.go:15-26 | on success the text parses back to the minted access token |
| Tokens.GenerateRefreshToken | util/token.go:29-40 | on success the text parses back to the minted refresh token |
| Tokens.GetTokenPair | util/token.go:43-57 | no error iff both generations succeed; the access error takes precedence over the refresh error; any error gives two empty strings; the refresh token is built from the user id alone |
| Tokens.GetTokenFromHeader | util/token.go:60-63 | panics iff the header has no space (empty header included); otherwise returns a space-free field, which `TokenProperties.BearerHeaderYieldsToken` pins as the text after the first space up to the next space |
| Tokens.HS256Only | util/token.go:70-75 | the key function refuses exactly the non-HS256 tokens, with the signing-method error, and otherwise supplies the configured secret |
| Tokens.ValidateAccessJWT | util/token.go:65-82 | valid iff no error iff the text is accepted under the access secret (parses, HS256, unexpired, tag matches); a non-HS256 token gives the signing-method error; the decoded claims are returned even when invalid, and the partly decoded ones with the malformed error |
| Tokens.ValidateRefreshJWT | util/token.go:83-100 | the same as the access validator, under the refresh secret, decoding only the user id and expiry, partly decoded ones included |
| Tokens.DoesTokenContainPermission | util/token.go:102-114 | as written: panics iff the header has no space; otherwise true iff the access token is valid, whatever the permission list holds |
| Tokens.BearerToken | util/token.go:60-63 | the token field of the header, or nothing when there is no space; agrees with `GetTokenFromHeader` wherever the latter returns |
| Tokens.TokenHasPermission | util/token.go:102-114 | as intended: true iff the header carries a valid access token whose permission list contains the permission |
| TokenProperties.AccessRoundTrip | util/token.go:15-26 | an issued access token validates to the issued claims, with expiry `t + 900`, at any time up to `t + 900` |
| TokenProperties.RejectionReasons | util/token.go:70-81 | for any HS256 token, both validators give the expiry error past `exp`, and an unexpired token whose tag does not match under the validator's secret gets the bad-signature error |
| TokenProperties.AccessExpires | util/token.go:17 | after `t + 900` the same access token is rejected with the expiry error |
| TokenProperties.RefreshRoundTrip | util/token.go:29-40 | an issued refresh token validates to the user id with expiry `t + 604800` until then |
| TokenProperties.RefreshExpires | util/token.go:31 | after `t + 604800` the refresh token is rejected with the expiry error |
| TokenProperties.AlgorithmGate | util/token.go:71-73 | a token declaring any algorithm but HS256 (`none` included) gets the signing-method error from both validators, and the outcome does not depend on the secrets |
| TokenProperties.SecretSeparation | util/token.go:74 | under separated secrets, a refresh-tagged token never passes access validation and an access-tagged token never passes refresh validation |
| TokenProperties.PairTokensNotInterchangeable | util/token.go:43-57 | the two tokens of a pair cannot stand in for each other |
| TokenProperties.PairRefreshIsMinimal | util/token.go:45 | a pair's refresh token holds the user id, no permissions and the refresh lifetime, and does not change with the permission snapshot |
| TokenProperties.BearerHeaderYieldsToken | util/token.go:60-63 | for space-free `scheme` and `token`, the header `<scheme> <token><tail>` yields `token` whenever `tail` is empty or starts with a space |
| TokenProperties.HeaderFieldExamples | util/token.go:62 | `Bearer a b` yields `a`, and `Bearer  tok` (two spaces) yields the empty token |
| TokenProperties.PermissionCheckGrantsAbsentPermission | util/token.go:108-113 | a concrete valid token listing no permissions is granted `admin` by the permission check as written |
| TokenProperties.PermissionCheckIgnoresList | util/token.go:102-114 | as written, the answer is the same for any two permissions asked about |
| AccessGate.Decide | middleware/jwt_access_auth.go:12-29 | an empty header is rejected; a non-empty header without a space crashes; the request passes iff the header's token is accepted under the access secret |
| AccessGate.AccessJWTAuth | middleware/jwt_access_auth.go:10-31 | an empty header gives the 401 reply; panics iff the header is non-empty without a space; otherwise the reply is the 401 reply or `next`'s reply to the same request, the latter exactly when the token is accepted |
| AccessGate.AccessJWTAuthChecked | middleware/jwt_access_auth.go:10-31 | the gate with the panic replaced by 401: `next`'s reply iff the header carries a valid access token, else the 401 reply |
| AccessGateProperties.RejectionIgnoresNext | middleware/jwt_access_auth.go:13-27 | a request the gate does not pass gets the same outcome whatever the next handler is |
| AccessGateProperties.RejectionsIndistinguishable | middleware/jwt_access_auth.go:14-26 | a missing header and an invalid token give the same 401 reply |
| AccessGateProperties.IssuedTokenPasses | middleware/jwt_access_auth.go:20-29 | `Bearer <issued access token>` reaches `next` before expiry |
| AccessGateProperties.ExpiredTokenRejected | middleware/jwt_access_auth.go:20-27 | the same header after expiry gets the 401 reply |
| AccessGateProperties.HeaderWithoutSpacePanics | middleware/jwt_access_auth.go:20 | the header `abc` makes the gate panic |
| AccessGateProperties.CheckedGateAgrees | middleware/jwt_access_auth.go:10-31 | the checked gate agrees with the gate as written wherever that returns, and answers 401 where it panics |
| AuthController.LoginLookup | controller/auth_controller.go:38-46 | by username when one is given, else by email when one is given, else no lookup |
| AuthController.UserLoginHandler | controller/auth_controller.go:26-77 | the status is one of 200/400/401/404/500; 400 iff neither identifier; 404 iff not found; 500 iff another lookup error; 401 iff the hash check fails; 200 iff it succeeds, with the pair's tokens in the body; no other reply carries tokens |
| AuthController.RefreshSubject | controller/auth_controller.go:81 | the user id the refresh validator decoded, whether or not the token was valid; the partly decoded user id when the text does not parse |
| AuthController.TokenRefreshHandler | controller/auth_controller.go:79-97 | panics iff the header has no space; 500 iff the lookup of the token's subject fails; otherwise 200 with exactly an `accessToken`, minted from the fetched claims, or empty when minting fails |
| AuthControllerProperties.NoIdentifierConsultsNothing | controller/auth_controller.go:42-46 | with neither identifier the reply is 400 whatever the services, configuration and clock |
| AuthControllerProperties.UsernameTakesPrecedence | controller/auth_controller.go:38-39 | with a username, the email and the email lookup do not affect the reply |
| AuthControllerProperties.EmailUsedOnlyWithoutUsername | controller/auth_controller.go:40-41 | without a username, the username lookup does not affect the reply |
| AuthControllerProperties.LookupErrorBeforePassword | controller/auth_controller.go:49-59 | a lookup error is answered before the password is looked at: the reply is independent of the password and hash check and is never 401 |
| AuthControllerProperties.WrongPasswordGetsNoTokens | controller/auth_controller.go:62-68 | a hash mismatch gives exactly the 401 reply |
| AuthControllerProperties.TokenErrorStill200 | controller/auth_controller.go:71-76 | a token-generation error after a correct password still gives 200, with two empty tokens |
| AuthControllerProperties.LoginTokensValidate | controller/auth_controller.go:71-76 | a successful login's access token validates to the looked-up claims until expiry, and its refresh token to the user id |
| AuthControllerProperties.RefreshLooksUpSubject | controller/auth_controller.go:81-83 | the refresh reply depends on the lookup only at the token's subject |
| AuthControllerProperties.RefreshIgnoresVerdict | controller/auth_controller.go:81 | two tokens naming the same subject get the same reply, whether valid or not |
| AuthControllerProperties.MalformedTokenStillNamesSubject | controller/auth_controller.go:81-96 | a refresh token that does not parse is invalid, yet the user id decoded from it is looked up and, when found, gets 200 and an access token minted from that user's claims |
| AuthControllerProperties.RefreshTokenErrorStill200 | controller/auth_controller.go:92-96 | a minting failure during a refresh still gives 200, with an empty access token |
| AuthControllerProperties.RefreshUsesFetchedClaims | controller/auth_controller.go:83-96 | a successful refresh returns an access token that validates to the re-fetched claims |
| Mutations.OldValueGuard | ent/mutation.go:165-172 | an `Old*` accessor proceeds iff the operation has the UpdateOne bit and the mutation has an id and an old-row source; otherwise the matching one of its two errors |
| Mutations.SetFields | ent/mutation.go:354-369 | the listed names are exactly the schema names that are set, each once, in schema order |
| Mutations.SetFieldsCongruent | ent/mutation.go:1026-1053 | the listing depends only on which names are set |
| RoleMutations.ColumnKind | ent/migrate/schema.go:12-18 | exactly the four Role columns have a type |
| RoleMutations.NewRoleMutation | ent/mutation.go:56-89 | a new mutation has the given operation, the id with its old-row source when given, and no field, append or cleared mark |
| RoleMutations.Field | ent/mutation.go:374-386 | a value is reported only for a Role column, of that column's type |
| RoleMutations.SetCreatedAt | ent/mutation.go:149-151 | `created_at` reads the value set and every other column is unchanged |
| RoleMutations.ResetCreatedAt | ent/mutation.go:180-182 | `created_at` reads unset and every other column is unchanged |
| RoleMutations.SetUpdatedAt | ent/mutation.go:185-187 | `updated_at` reads the value set and every other column is unchanged |
| RoleMutations.ResetUpdatedAt | ent/mutation.go:216-218 | `updated_at` reads unset and every other column is unchanged |
| RoleMutations.SetName | ent/mutation.go:221-223 | `name` reads the value set and every other column is unchanged |
| RoleMutations.ResetName | ent/mutation.go:252-254 | `name` reads unset and every other column is unchanged |
| RoleMutations.SetPermissions | ent/mutation.go:257-260 | `permissions` reads the list set, pending appends are dropped, the cleared mark is kept |
| RoleMutations.AppendPermissions | ent/mutation.go:289-291 | the pending appends grow by the new items at the end; no column changes |
| RoleMutations.AppendedPermissions | ent/mutation.go:294-299 | the pending appends, reported absent iff there are none |
| RoleMutations.ClearPermissions | ent/mutation.go:302-306 | drops the list and the appends and adds the cleared mark |
| RoleMutations.ResetPermissions | ent/mutation.go:315-319 | drops the list, the appends and the cleared mark |
| RoleMutations.Fields | ent/mutation.go:354-369 | the set columns, each once, in schema order, at most four |
| RoleMutations.SetField | ent/mutation.go:408-440 | succeeds iff the name is a Role column and the value has its type, and then acts as the typed setter; otherwise no change and the unknown-field or unexpected-type error |
| RoleMutations.PermissionsCleared | ent/mutation.go:309-312 | agrees with the name-based `FieldCleared` for `permissions` and with the `ClearedFields` listing |
| RoleMutations.FieldCleared | ent/mutation.go:476-479 | while only nullable columns carry the cleared mark, only `permissions` can be reported cleared |
| RoleMutations.ClearedFields | ent/mutation.go:466-472 | lists `permissions` iff it carries the cleared mark |
| RoleMutations.ClearField | ent/mutation.go:483-490 | only `permissions` can be cleared; any other name is the unknown-nullable-field error with no change |
| RoleMutations.ResetField | ent/mutation.go:494-510 | succeeds iff the name is a Role column, making it read unset and leaving the others; otherwise no change and the unknown-field error |
| RoleMutations.OldField | ent/mutation.go:391-403 | an unknown name is the unknown-field error; a known one reaches the old-row read iff the UpdateOne guard passes |
| RoleMutations.ClearEdge | ent/mutation.go:550-552 | a Role has no edges: always the unknown-unique-edge error, with no change |
| RoleMutations.ResetEdge | ent/mutation.go:556-558 | always the unknown-edge error, with no change |
| RoleMutations.ReplayKeepsMarksValid | ent/mutation.go:302-319 | no sequence of calls marks any column but `permissions` cleared |
| RoleMutations.ClearedFieldsExact | ent/mutation.go:466-479 | for every mutation reachable from a fresh one, `ClearedFields` lists exactly the names `FieldCleared` reports |
| RoleMutations.SetThenReset | ent/mutation.go:408-510 | a column set by name reads back the value and is listed; after a reset it is no longer listed |
| UserMutations.ColumnKind | ent/migrate/schema.go:26-36 | exactly the eight User columns have a type |
| UserMutations.NewUserMutation | ent/mutation.go:587-620 | a new mutation has the given operation, the id with its old-row source when given, no field set and the edge not cleared |
| UserMutations.Field | ent/mutation.go:1058-1078 | a value is reported only for a User column, of that column's type |
| UserMutations.SetUuid | ent/mutation.go:680-682 | `uuid` reads the value set; every other column and the edge flag are unchanged |
| UserMutations.ResetUuid | ent/mutation.go:711-713 | `uuid` reads unset; everything else is unchanged |
| UserMutations.SetCreatedAt | ent/mutation.go:716-718 | `created_at` reads the value set; everything else is unchanged |
| UserMutations.ResetCreatedAt | ent/mutation.go:747-749 | `created_at` reads unset; everything else is unchanged |
| UserMutations.SetUpdatedAt | ent/mutation.go:752-754 | `updated_at` reads the value set; everything else is unchanged |
| UserMutations.ResetUpdatedAt | ent/mutation.go:783-785 | `updated_at` reads unset; everything else is unchanged |
| UserMutations.SetEmail | ent/mutation.go:788-790 | `email` reads the value set; everything else is unchanged |
| UserMutations.ResetEmail | ent/mutation.go:819-821 | `email` reads unset; everything else is unchanged |
| UserMutations.SetPassword | ent/mutation.go:824-826 | `password` reads the value set; everything else is unchanged |
| UserMutations.ResetPassword | ent/mutation.go:855-857 | `password` reads unset; everything else is unchanged |
| UserMutations.SetPfp | ent/mutation.go:860-862 | `pfp` reads the bytes set; everything else is unchanged |
| UserMutations.ResetPfp | ent/mutation.go:891-893 | `pfp` reads unset; everything else is unchanged |
| UserMutations.SetName | ent/mutation.go:896-898 | `name` reads the value set; everything else is unchanged |
| UserMutations.ResetName | ent/mutation.go:927-929 | `name` reads unset; everything else is unchanged |
| UserMutations.SetRoleId | ent/mutation.go:932-934 | `role_id` reads the id set and the role edge lists exactly that id; everything else is unchanged |
| UserMutations.ResetRoleId | ent/mutation.go:963-965 | the role id is dropped but the edge-cleared flag stays as it was |
| UserMutations.RoleCleared | ent/mutation.go:973-975 | agrees with the name-based `EdgeCleared` for `role` |
| UserMutations.ClearRole | ent/mutation.go:968-970 | raises the edge-cleared flag and changes no column, not even a role id already set |
| UserMutations.RoleIds | ent/mutation.go:980-985 | at most one id, and exactly the role id set |
| UserMutations.ResetRole | ent/mutation.go:988-991 | drops the role id and lowers the edge-cleared flag; no other column changes |
| UserMutations.Fields | ent/mutation.go:1026-1053 | the set columns, each once, in schema order, at most eight |
| UserMutations.SetField | ent/mutation.go:1108-1168 | succeeds iff the name is a User column and the value has its type, and then acts as the typed setter; otherwise no change and the unknown-field or unexpected-type error |
| UserMutations.ClearedFields | ent/mutation.go:1197-1199 | always empty |
| UserMutations.FieldCleared | ent/mutation.go:1203-1206 | never true: the User cleared-field set is never written |
| UserMutations.ClearField | ent/mutation.go:1210-1212 | always the unknown-nullable-field error, with no change |
| UserMutations.ResetField | ent/mutation.go:1216-1244 | succeeds iff the name is a User column, making it read unset and leaving the others; `role_id` resets the id only |
| UserMutations.OldField | ent/mutation.go:1083-1103 | an unknown name is the unknown-field error; a known one reaches the old-row read iff the UpdateOne guard passes |
| UserMutations.AddedEdges | ent/mutation.go:1247-1253 | lists `role` iff a role id is set |
| UserMutations.AddedIds | ent/mutation.go:1257-1265 | the role id for the `role` edge, nothing for any other name |
| UserMutations.RemovedEdges | ent/mutation.go:1268-1271 | always empty |
| UserMutations.RemovedIds | ent/mutation.go:1275-1277 | always empty |
| UserMutations.ClearedEdges | ent/mutation.go:1280-1286 | lists exactly the edges `EdgeCleared` reports, at most one |
| UserMutations.EdgeCleared | ent/mutation.go:1290-1296 | only the `role` edge can be reported cleared |
| UserMutations.ClearEdge | ent/mutation.go:1300-1307 | succeeds iff the name is `role`, and then acts as `ClearRole`; otherwise no change and the unknown-unique-edge error |
| UserMutations.ResetEdge | ent/mutation.go:1311-1318 | succeeds iff the name is `role`, and then acts as `ResetRole`; otherwise no change and the unknown-edge error |
| UserMutations.ClearRoleKeepsFields | ent/mutation.go:968-970 | clearing the edge does not change the listing of set columns |
| UserMutations.SetThenReset | ent/mutation.go:1108-1244 | a column set by name reads back the value; a reset unlists it and leaves the others as before the set |
| UserMutations.RoleIdViewsAgree | ent/mutation.go:1049-1051 | the role id shows up alike as the `role_id` column, in `RoleIDs` and in `AddedEdges` |
| UserMutations.ResetColumnVersusEdge | ent/mutation.go:963-991 | resetting the `role_id` column keeps a cleared edge cleared; resetting the `role` edge does not |

## Left out

- HMAC-SHA256, base64url and JSON encoding: uninterpreted functions in
  `Jwt.Config`. Their needed properties are the stated assumptions
  `CodecRoundTrip` and `SecretsSeparated`.
- Jwt.ParseWithClaims: the library treats a zero `exp` claim as "no
  expiry", and that is not modelled. `NotExpired` is the plain `now <= exp`
  comparison. The tokens issued here always carry a non-zero `exp`.
- Jwt.ParseWithClaims: the library's `StandardClaims.Valid` also checks the
  `iat` and `nbf` claims. Those checks are not modelled, because the
  tokens issued here set neither claim, so the checks always pass.
- Jwt.ParseWithClaims: one partial decoding, `Config.partial`, serves
  both claims shapes. In Go the refresh DTO has no `permissions` field,
  so a payload whose only type error is in `permissions` decodes cleanly
  into it. The model reports such text as malformed for both validators.
- Jwt.ParseWithClaims: an `alg` the library does not know is rejected by
  the library's registry before the key function runs. Here it reaches
  the key function, which gives the same signing-method refusal. Only the
  error text differs.
- The token expiry is `now + 900` or `now + 604800` on unbounded integers.
  The 64-bit Unix time overflow is out of range for any real clock.
- `time.Now()` is the parameter `now`. Logging in `GetTokenPair` is
  left out.
- Tokens.GetTokenPair: every clock read during one request is the same
  second `now`. In Go the clock is read separately at `util/token.go:17`
  and at `util/token.go:31`, and again by the library inside each
  validator, including the one at `controller/auth_controller.go:81`
  before the mint at line 92. So in Go the refresh token's expiry can be
  one second later than the `t + 604800` stated in
  `TokenProperties.PairRefreshIsMinimal` and
  `AuthControllerProperties.LoginTokensValidate`, with `t` the second the
  access token was minted.
- `VerifyHash` and the three `service` lookups are parameters in
  `AuthController.Services`. The service package is not part of this
  model.
- The `dto` package is not part of this model. Its claims structs appear
  as `Jwt.Claims` and `Tokens.RefreshClaims`, with the fields used here.
- Echo's `Bind` is not modelled. The login body arrives already decoded.
  The handler ignores `Bind`'s error, and JSON decoding fills every field
  it can before it reports one. So whatever `Bind` does, the handler goes
  on with some `LoginRequest`, possibly partly filled. The all-inputs
  contract of `AuthController.UserLoginHandler` covers every such value.
- Http.Authorization: Go's `Header.Get` canonicalises the header name and
  returns the first of several values. The model looks up the exact key
  `Authorization` in a map holding one value per name.
- The route registration in `init` (`controller/auth_controller.go:13-24`)
  is not modelled, and neither is the `RefreshJWTAuth` middleware, which
  is not part of this model. So `TokenRefreshHandler` is modelled as
  reachable with any header.
- AuthController.TokenRefreshHandler: the 500 reply's body is the fixed
  message. The error value from the lookup is not kept.
- ent mutations: the database side is left out. That covers `Client`,
  `Tx`, `IDs`, the `Where`/`WhereP` predicates, the `done` flag, and the
  `sync.Once` fetch of the old row. `OldField` and the `Old*` accessors are
  modelled up to the guard: `Success(name)` means the old row would be
  read.
- ent mutations: the per-field getters (`CreatedAt()`, `Name()`,
  `RoleID()` and the like) are the same as `Field` on their column, so
  they are covered by `Field`. `ID()`, `Op()`, `SetOp` and `Type()` only
  read or write one stored value. `SetOp` appears as a call in
  `RoleMutations.Replay`.
- ent mutations: `AddedFields`, `AddedField` and `AddField` are constant
  and left out. The Role schema has no numeric column. The User `role_id`
  column is an integer, but it is the foreign key of the `role` edge, so
  ent generates no increment for it (`ent/mutation.go:1172-1192`).
- ent mutations: the mutations are modelled by value. In Go,
  `SetPermissions` and `SetPfp` store the caller's slice, and `Permissions`
  and `AppendedPermissions` return the stored one. A later write through
  such an alias changes the mutation, which a value cannot show. No code
  in this model writes through those aliases.
- RoleMutations: `AddedEdges`, `AddedIDs`, `RemovedEdges`, `RemovedIDs`,
  `ClearedEdges` and `EdgeCleared` return constant empty results, because
  a Role has no edges. Only `ClearEdge` and `ResetEdge` are modelled.
- ent mutations: `withRole(node)` and `withUser(node)` differ from the id
  options only in where the old row comes from. Both are `hasOldValue`.
- The field-name constants come from the column names in
  `ent/migrate/schema.go`. The edge name `role` comes from the foreign key
  there. The generated `role` and `user` packages that define them are
  not part of this model.
- Time values in mutations are opaque integers. UUIDs are opaque byte
  strings.
- `proto/go/user_api.pb.go`, `ent/runtime.go`, `controllers/server.go` and
  `ui/src/lib/store.ts` lie outside the access-control core.

## Findings

| source | as written | input that shows it | evidently intended | confidence | as-written member | corrected member |
|---|---|---|---|---|---|---|
| util/token.go:113 | after the loop finds no match, the function returns `true` | header `Bearer tok` carrying a valid access token whose permission list is empty, asked for `admin` | return `false` when the permission is not listed | not executed | Tokens.DoesTokenContainPermission, TokenProperties.PermissionCheckGrantsAbsentPermission | Tokens.TokenHasPermission |
| util/token.go:62 | `strings.Split(header, " ")[1]` indexes past the end when the header has no space, so the request panics instead of getting 401 | `Authorization: abc` | reject a header without a token field with the same 401 reply as any other failure | not executed | AccessGate.AccessJWTAuth, AccessGateProperties.HeaderWithoutSpacePanics | AccessGate.AccessJWTAuthChecked, AccessGateProperties.CheckedGateAgrees |
