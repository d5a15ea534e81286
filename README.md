# OAuth2 server library core, in Dafny

This project models the core of a PHP OAuth2 authorization-server library and proves properties about that model.

- The token revocation endpoint of RFC 7009:
  - parameter extraction, where the query wins over the body;
  - the transport-security check, the token-presence check and the best-effort client resolution;
  - dispatch on the token-type hint, the ownership check and the access-to-refresh cascade;
  - the empty or JSONP response body.
- The two token managers:
  - random length, random string and expiry;
  - the in-memory access-token store of the test suite, and a dictionary refresh-token store of the model's own, because the source leaves that store abstract.
- The parsed HTTP Digest header of RFC 2617 and its server checks.
- Both JWT-bearer grant types of RFC 7523; they fill a grant-type response accumulator in two phases.
- The `none` response type.
- The query response mode.
- The redirecting error.
- The test stubs: the password client registry, the end user and the unregistered client.

Each PHP class becomes a Dafny module:

- A value object becomes a datatype.
- An object whose fields change becomes a class. Its `map` fields are reassigned by `modifies` methods.
- A computation becomes a function.
- Each method that changes state is proved equal to a specification function of the old state. The properties are proved about those functions.

Things outside the core become parameters:

- the clock: `now`;
- the random draw: `draw`;
- the random-string generator;
- MD5, HMAC-SHA512 and base64;
- the JOSE loader and signature verifier;
- the JSON error documents: `errorBody`;
- the URI builder: `buildUri`;
- the client lookup: a `ClientLookup` outcome.

Where the code and its design notes disagree, the model follows the code:

- `checkNonce` records the expiry time as soon as the nonce splits into two tokens. This happens before the HMAC comparison, so a compromised nonce also leaves an expiry time behind.
- The endpoint's constructor requires a refresh-token manager. So the revocation methods, as the endpoint uses them, always include `refresh_token`.

## Model

| member | source | states |
|---|---|---|
| Common.Entry | src/Util/RequestBody.php:34-39 | a parameter is present exactly when its key is in the parsed body, and then has that key's value; otherwise it is null |
| Clients.LifetimeOverride | src/Token/RefreshTokenManager.php:81-83 | a client without the lifetime extension gives no override; a client with it gives its table entry, or its fallback |
| UnregisteredClientStub.GetTokenLifetime | tests/Stub/UnregisteredClient.php:19-30 | `authcode` gives 10, `access_token` 1000, and anything else (`refresh_token` included) 2000, so it is never null |
| UnregisteredClientStub.TableAgreesWithSwitch | tests/Stub/UnregisteredClient.php:19-30 | the unregistered client's lifetime table gives the switch's value for every token kind |
| EndUserStub.NewEndUser | tests/Stub/EndUser.php:35-41 | the public id is the username; username and password are the arguments |
| EndUserStub.GettersReturnConstructorArguments | tests/Stub/EndUser.php:43-54 | the getters return what the constructor was given |
| EndUserStub.RefreshIssuanceIgnoresGrantType | tests/Stub/EndUser.php:59-62 | refresh issuance is allowed iff the client is confidential, whatever the grant type and the end user |
| PasswordClientManagerStub.PasswordClient | tests/Stub/PasswordClientManager.php:33-37 | a password client is confidential, not a JWT client, and has the given secret and grant types |
| PasswordClientManagerStub.PasswordClientManager.GetClient | tests/Stub/PasswordClientManager.php:26-29 | the registered client, or null exactly when the id is not registered |
| PasswordClientManagerStub.PasswordClientManager.CreateClients | tests/Stub/PasswordClientManager.php:31-57 | bar, baz and Mufasa are added under their ids; a registry keyed by public id stays so |
| PasswordClientManagerStub.FixtureRegistry | tests/Stub/PasswordClientManager.php:31-57 | on a fresh registry exactly bar, baz and Mufasa are registered; baz allows only `authorization_code`; bar and Mufasa allow all eight grant types; the secrets are `secret`, `secret` and `Circle Of Life` |
| Tokens.DefaultCharsetIsExact | src/Token/SimpleStringAccessTokenManager.php:46 | the default charset holds exactly the 68 characters A-Z, a-z, 0-9 and `-._~+/` |
| Tokens.ChooseLength | src/Token/SimpleStringAccessTokenManager.php:66-73 | `rand(min(a,b), max(a,b))` lies between the two bounds, whichever order they are configured in |
| Tokens.ChooseLengthSymmetric | src/Token/SimpleStringAccessTokenManager.php:72 | swapping the configured bounds does not change the length |
| Tokens.ChooseLengthCoversRange | src/Token/SimpleStringAccessTokenManager.php:72 | every length in the range is reached by some draw |
| Tokens.CheckGenerated | src/Token/SimpleStringAccessTokenManager.php:47-54 | a generated string is accepted iff it is a string of exactly the drawn length; a generator exception keeps its message; a wrong result gets the fixed message; every failure is a 500 `server_error` |
| AccessTokenManagement.AccessTokenLength | src/Token/SimpleStringAccessTokenManager.php:66-73 | the length lies between the configured bounds, and between 20 and 30 with the defaults |
| AccessTokenManagement.AccessTokenCharset | src/Token/SimpleStringAccessTokenManager.php:46 | without configuration the charset is the default one |
| AccessTokenManagement.NewAccessToken | src/Token/SimpleStringAccessTokenManager.php:43-59 | creation succeeds iff the generator yields a string of the drawn length; the token then has that string, expires at now + lifetime and records client, owner, scope and the paired refresh token; otherwise a 500 `server_error` |
| AccessTokenManagement.StoredAccessToken | tests/Stub/SimpleStringAccessTokenManager.php:61-74 | the stored token carries the arguments, the owner's public id and the refresh token's string or null |
| AccessTokenManagement.SeededAccessTokens | tests/Stub/SimpleStringAccessTokenManager.php:34-56 | the seeded store holds exactly ABCD, owned by bar with no refresh token, and EFGH, owned by foo and paired with REFRESH_EFGH |
| AccessTokenManagement.AccessTokenManager.constructor | tests/Stub/SimpleStringAccessTokenManager.php:34-56 | the store starts with the seeded tokens |
| AccessTokenManagement.AccessTokenManager.GetAccessToken | tests/Stub/SimpleStringAccessTokenManager.php:91-94 | the stored token, or null exactly when absent; a token is found under its own string |
| AccessTokenManagement.AccessTokenManager.AddAccessToken | tests/Stub/SimpleStringAccessTokenManager.php:61-74 | the new token is stored under its string and no other entry changes |
| AccessTokenManagement.AccessTokenManager.RevokeAccessToken | tests/Stub/SimpleStringAccessTokenManager.php:79-86 | the token's entry is removed and nothing else, so `getAccessToken` then returns null for it and the same for every other key as before; revoking an absent token is a no-op, so revoking twice is revoking once |
| AccessTokenManagement.AccessTokenManager.CreateAccessToken | src/Token/SimpleStringAccessTokenManager.php:43-59 | the result is `NewAccessToken`; on success it is added to the store, and on failure the store is unchanged |
| RefreshTokenManagement.RefreshLifetime | src/Token/RefreshTokenManager.php:79-86 | the client's `refresh_token` lifetime when it has one, else the configured lifetime (default 1209600) |
| RefreshTokenManagement.UnregisteredClientRefreshLifetime | src/Token/RefreshTokenManager.php:79-86 | refresh tokens of the unregistered test client live 2000 seconds |
| RefreshTokenManagement.RefreshTokenLength | src/Token/RefreshTokenManager.php:93-100 | the length lies between the configured bounds (defaults 20 and 30) |
| RefreshTokenManagement.RefreshTokenCharset | src/Token/RefreshTokenManager.php:59 | without configuration the charset is the default one |
| RefreshTokenManagement.StoredRefreshToken | src/Token/RefreshTokenManager.php:51 | a new refresh token carries the arguments and is not used |
| RefreshTokenManagement.NewRefreshToken | src/Token/RefreshTokenManager.php:56-72 | creation succeeds iff the generator yields a string of the drawn length; the token then expires at now + `RefreshLifetime`; otherwise a 500 `server_error` |
| RefreshTokenManagement.RefreshTokenManager.GetRefreshToken | src/Token/RefreshTokenManagerInterface.php:34 | the stored token, or null exactly when absent |
| RefreshTokenManagement.RefreshTokenManager.AddRefreshToken | src/Token/RefreshTokenManager.php:51 | the new token is stored under its string |
| RefreshTokenManagement.RefreshTokenManager.RevokeRefreshToken | src/Token/RefreshTokenManagerInterface.php:55 | the token's entry is removed and nothing else |
| RefreshTokenManagement.RefreshTokenManager.MarkRefreshTokenAsUsed | src/Token/RefreshTokenManagerInterface.php:67 | a stored token is marked used and keeps everything else; an absent one changes nothing |
| RefreshTokenManagement.RefreshTokenManager.CreateRefreshToken | src/Token/RefreshTokenManager.php:56-72 | the result is `NewRefreshToken`; on success it is added, and on failure the store is unchanged |
| Revocation.Cascades | src/Endpoint/RevocationEndpoint.php:197 | the cascade is on unless the configuration switches it off |
| Revocation.Parameter | src/Endpoint/RevocationEndpoint.php:157 | the query value when the key is in the query, else the body value, else null |
| Revocation.GetParameters | src/Endpoint/RevocationEndpoint.php:152-159 | the loop over the three keys yields `Token`, `Hint` and `Callback` of the request: for each, the query value, else the body value, else null (see `RevocationProperties.QueryParametersTakePrecedence`) |
| Revocation.IsRequestSecured | src/Endpoint/RevocationEndpoint.php:84-89 | secure iff `HTTPS` is present, is neither "" nor "0", and is not `off` in any mix of letter cases |
| Revocation.RequestSecurityExamples | src/Endpoint/RevocationEndpoint.php:84-89 | absent, "", "0", `off`, `OFF` and `Off` are insecure; `on` and `1` are secure |
| Revocation.OwnershipRule | src/Endpoint/RevocationEndpoint.php:224-236 | a confidential client's token is revocable by that client once authenticated, by no other client and never anonymously; a public or unknown owner's token is revocable anonymously |
| Revocation.GetRevocationMethods | src/Endpoint/RevocationEndpoint.php:67-77 | `access_token` comes first; `refresh_token` is present iff a refresh manager is configured |
| Revocation.MethodFor | src/Endpoint/RevocationEndpoint.php:177-178 | a hint finds a method iff it is one of the table's names, and then it finds that name's method |
| Revocation.GetResponseContent | src/Endpoint/RevocationEndpoint.php:135-142 | the status is the code; the body gets `callback(content)` appended iff a callback is given |
| Revocation.UnsupportedHint | src/Endpoint/RevocationEndpoint.php:181 | an unknown hint is a 501 `unsupported_token_type` |
| Revocation.Endpoint.constructor | src/Endpoint/RevocationEndpoint.php:50-62 | the endpoint keeps its two stores and its settings |
| Revocation.Endpoint.TryRevokeRefreshToken | src/Endpoint/RevocationEndpoint.php:210-216 | the refresh store becomes `TryRevokeRefresh` of the old one: the token goes iff it exists and its owner passes the ownership check |
| Revocation.Endpoint.TryRevokeAccessToken | src/Endpoint/RevocationEndpoint.php:193-202 | both stores become `TryRevokeAccess` of the old ones: the paired refresh token is tried first when the cascade is on, then the access token goes |
| Revocation.Endpoint.ApplyMethod | src/Endpoint/RevocationEndpoint.php:175 | calling a table method changes the stores as that method's specification says |
| Revocation.Endpoint.RevokeToken | src/Endpoint/RevocationEndpoint.php:170-187 | the loop over the methods, or the hinted method, or the 501 answer, gives exactly `RevokeTokenSpec` |
| Revocation.Endpoint.Revoke | src/Endpoint/RevocationEndpoint.php:94-127 | the whole run, on the response and both stores, is `RevokeSpec` |
| RevocationProperties.RevocationOnlyRemovesNamedTokens | src/Endpoint/RevocationEndpoint.php:170-216 | a run only removes tokens: the named access token, and the named refresh token or the one paired with it; everything removed passed the ownership check; without a token nothing changes |
| RevocationProperties.RevokeKindsIsBounded | src/Endpoint/RevocationEndpoint.php:174-176 | every prefix of the method loop stays within that bound |
| RevocationProperties.ApplyKindIsBounded | src/Endpoint/RevocationEndpoint.php:193-216 | one method stays within that bound |
| RevocationProperties.RevokeTokenSpecIsBounded | src/Endpoint/RevocationEndpoint.php:170-187 | `revokeToken` stays within that bound on every path |
| RevocationProperties.BoundedTransitive | src/Endpoint/RevocationEndpoint.php:174-176 | two steps within the bound make one step within it |
| RevocationProperties.AnonymousRevocationSparesConfidentialClients | src/Endpoint/RevocationEndpoint.php:229-234 | without an authenticated client, no token of a registered confidential client is removed or changed |
| RevocationProperties.AuthenticatedClientRevokesOnlyOwnTokens | src/Endpoint/RevocationEndpoint.php:226-228 | an authenticated client only removes tokens whose client id is its own |
| RevocationProperties.ApplyKindSettles | src/Endpoint/RevocationEndpoint.php:193-216 | after a method no revocable token of its kind is left; on a settled state the method is a no-op |
| RevocationProperties.RevokeKindsSettles | src/Endpoint/RevocationEndpoint.php:174-176 | after the loop neither kind has a revocable token left; on a settled state the loop changes nothing |
| RevocationProperties.RevokeTokenIsIdempotent | src/Endpoint/RevocationEndpoint.php:170-187 | `revokeToken` twice gives the same answer and stores as once |
| RevocationProperties.RevocationIsIdempotent | src/Endpoint/RevocationEndpoint.php:94-127 | repeating a request gives the same outcome and no further change |
| RevocationProperties.VerifiedAccessTokenIsRevoked | src/Endpoint/RevocationEndpoint.php:193-202 | a revocable access token is removed, with its paired refresh token when the cascade is on and that token is revocable too; the answer is 200 with empty content |
| RevocationProperties.NoCascadeKeepsRefreshTokens | src/Endpoint/RevocationEndpoint.php:197-199 | with the cascade off, the access hint keeps every refresh token, and no hint removes at most the named refresh token |
| RevocationProperties.RefreshHintKeepsAccessTokens | src/Endpoint/RevocationEndpoint.php:177-179 | the `refresh_token` hint leaves the access store untouched |
| RevocationProperties.VerifiedRefreshTokenIsRevoked | src/Endpoint/RevocationEndpoint.php:210-216 | a revocable refresh token named with no hint or the refresh hint is removed, answered with 200 |
| RevocationProperties.UnsupportedHintIsRejected | src/Endpoint/RevocationEndpoint.php:180-185 | a hint naming no kind gives 501 with the error document and changes nothing |
| RevocationProperties.ChecksComeInOrder | src/Endpoint/RevocationEndpoint.php:94-127 | secure check, then token check (400 each), then client lookup: an authentication failure answers with its status and data, only an internal error is thrown, and each leaves the stores unchanged; past the checks, no hint or a supported hint is answered 200 with empty content whatever the stores hold, and any other answer is 501 |
| RevocationProperties.BodyIsJsonpOnlyWithCallback | src/Endpoint/RevocationEndpoint.php:135-142 | the body grows by `callback(content)` exactly when a callback is given, and not at all otherwise |
| RevocationProperties.QueryParametersTakePrecedence | src/Endpoint/RevocationEndpoint.php:157 | a key in both query and body takes the query value |
| RevocationProperties.RemovesOnlyKeeps | src/Endpoint/RevocationEndpoint.php:170-216 | a key the bound does not allow survives with its value |
| RevocationScenarios.TestSettings | tests/Functional/PostTokenRevocationEndpointTest.php:198-233 | the test configuration sets the cascade flag as given |
| RevocationScenarios.RequestNotSecured | tests/Functional/PostTokenRevocationEndpointTest.php:22-49 | without `HTTPS`: 400, the JSONP error with a callback, and ABCD stays |
| RevocationScenarios.MissingTokenParameter | tests/Functional/PostTokenRevocationEndpointTest.php:50-105 | without a token: 400, and ABCD stays |
| RevocationScenarios.AccessTokenRevokedForAuthenticatedConfidentialClient | tests/Functional/PostTokenRevocationEndpointTest.php:106-133 | bar revokes ABCD: 200 with "" or `cb()` |
| RevocationScenarios.AccessTokenRevokedForAuthenticatedPublicClient | tests/Functional/PostTokenRevocationEndpointTest.php:134-165 | foo revokes EFGH, and REFRESH_EFGH goes with it |
| RevocationScenarios.AccessTokenNotRevokedForUnknownPublicClient | tests/Functional/PostTokenRevocationEndpointTest.php:166-197 | an unknown public client is answered with the authentication failure and nothing changes |
| RevocationScenarios.AccessTokenRevokedAnonymouslyWithoutCascade | tests/Functional/PostTokenRevocationEndpointTest.php:198-233 | with the cascade off, anonymous revocation removes EFGH and keeps REFRESH_EFGH |
| RevocationScenarios.AccessTokenAndTypeHint | tests/Functional/PostTokenRevocationEndpointTest.php:234-289 | the `access_token` hint removes EFGH, the `refresh_token` hint keeps it; both answer 200 |
| RevocationScenarios.RefreshTokenRevokedAnonymously | tests/Functional/PostTokenRevocationEndpointTest.php:290-317 | VALID_REFRESH_TOKEN is revoked anonymously and is in neither store afterwards |
| RevocationScenarios.FooTokenNotSupported | tests/Functional/PostTokenRevocationEndpointTest.php:318-345 | the `foo_token` hint gives 501 with the error document as JSONP content and nothing changes |
| RevocationScenarios.ConfidentialTokenSurvivesAnonymousRevocation | src/Endpoint/RevocationEndpoint.php:229-234 | anonymous revocation of bar's ABCD is answered 200 and ABCD stays |
| Digest.QuotedMatch | src/Util/DigestData.php:46-53 | a quoted `key="v"` match is kept with value v |
| Digest.BareMatch | src/Util/DigestData.php:46-53 | a bare `key=v` match is kept with value v: PCRE reports the unmatched group 3 as "" and the bare group wins |
| Digest.FoldMatchesLastWins | src/Util/DigestData.php:50-54 | a key is in the elements iff some kept match sets it, and its value is the last such match's |
| Digest.DigestData.constructor | src/Util/DigestData.php:43-55 | the loop over the matches fills the elements with exactly the fold of the matches |
| Digest.DigestData.GetResponse | src/Util/DigestData.php:60-63 | the stored `response` value |
| Digest.Unescape | src/Util/DigestData.php:70 | `strtr` never lengthens the username |
| Digest.UnescapeEscape | src/Util/DigestData.php:70 | unescaping undoes the quoted-string escaping of any username |
| Digest.UnescapeWithoutBackslash | src/Util/DigestData.php:70 | a username without backslashes is returned as stored |
| Digest.DigestData.GetUsername | src/Util/DigestData.php:68-71 | the username is returned unescaped: a username stored as `Escape(s)` comes back as `s`, and never longer than stored |
| Digest.MissingKeys | src/Util/DigestData.php:93 | `array_diff` keeps exactly the absent keys, in order |
| Digest.CheckElements | src/Util/DigestData.php:91-96 | accepted iff all six mandatory directives are present; otherwise the message lists the absent ones in order |
| Digest.CheckQualityOfProtection | src/Util/DigestData.php:101-108 | rejected iff qop is `auth` or `auth-int` and `nc` or `cnonce` is absent |
| Digest.CheckRealm | src/Util/DigestData.php:115-120 | accepted iff the realm is the expected one |
| Digest.CheckOpaque | src/Util/DigestData.php:128-135 | accepted iff `opaque` is base64(HMAC(nonce . realm, key)) |
| Digest.Explode | src/Util/DigestData.php:147 | at least one piece, none containing the separator |
| Digest.ExplodeTwoPieces | src/Util/DigestData.php:147-148 | a plain text with one colon yields exactly the two pieces around it |
| Digest.ExplodeJoin | src/Util/DigestData.php:147 | the pieces joined by the separator give back the text |
| Digest.NonceAcceptedIffAuthenticated | src/Util/DigestData.php:142-155 | the nonce is accepted iff it decodes to `time:mac` with one colon and `mac` is the HMAC of `time` followed by the key, keyed with the key; the expiry recorded is `time` |
| Digest.DigestData.CheckNonce | src/Util/DigestData.php:142-155 | the verdict is `NonceCheck`; the expiry is set once the nonce splits into two tokens, before the HMAC comparison |
| Digest.ValidationIsFirstFailure | src/Util/DigestData.php:79-86 | accepted iff all five checks accept; a rejection carries the message of the first rejecting check in the order elements, qop, realm, opaque, nonce; acceptance implies all directives and the right realm |
| Digest.DigestData.ValidateAndDecode | src/Util/DigestData.php:79-86 | runs the checks in order, stops at the first failure, and leaves the elements alone |
| Digest.DigestData.CalculateServerDigestUsingA1MD5 | src/Util/DigestData.php:180-201 | the string built by `.=` steps is the request-digest of RFC 2617 section 3.2.2.1; an unsupported qop is refused with the corrected `Digest.UnsupportedQop` message, not with line 194 as written |
| Digest.DigestData.CalculateServerDigestUsingPassword | src/Util/DigestData.php:165-170 | H(A1) is hashed from username:realm:password, then the digest is computed from it |
| Digest.AuthDigestIgnoresContent | src/Util/DigestData.php:188-189 | for qop `auth` the digest succeeds and does not depend on the content hash |
| Digest.DigestFailsOnlyForUnknownQop | src/Util/DigestData.php:187-196 | the digest fails exactly for a qop other than `auth` and `auth-int` |
| Digest.UnsupportedQopAsWritten | src/Util/DigestData.php:194 | as written, only a decimal qop yields the `InvalidArgumentException`, whose message keeps `%s`; any other qop makes the exception's construction fail |
| Digest.UnsupportedQopAsWrittenMissesIntent | src/Util/DigestData.php:194 | as written, no qop yields the exception naming it: `auth-conf` fails with an error of another kind, and `1` gives the `%s` message |
| Digest.UnsupportedQopNamesQop | src/Util/DigestData.php:194 | the corrected message determines the qop |
| Jose.Subject | lib/Grant/JWTBearerGrantType.php:46 | `getSubject` is the `sub` claim of a JWS, or null |
| GrantTypeResponses.GrantTypeResponse.GetAdditionalData | src/Grant/JWTBearerGrantType.php:101 | the stored additional datum, or null |
| JwtBearerGrant.JwtBearerGrantType.GetGrantType | src/Grant/JWTBearerGrantType.php:62-65 | the RFC 7523 grant type URN |
| JwtBearerGrant.PrepareOutcome | src/Grant/JWTBearerGrantType.php:70-91 | prepare succeeds iff the assertion is present, loads and carries `sub`; it then sets only the client id (the subject) and the `jwt` entry; a missing assertion comes first; its own refusals are 400 `invalid_request` |
| JwtBearerGrant.GrantOutcome | src/Grant/JWTBearerGrantType.php:96-114 | grant succeeds iff the client is a JWT client and the stored assertion's signature verifies; then both scopes are the body's `scope`, the owner is the client, and the refresh flag is the configured `issue_refresh_token_with_client_credentials_grant_type`, false by default; the client id and the additional data stay |
| JwtBearerGrant.TwoPhases | src/Grant/JWTBearerGrantType.php:70-114 | after a successful prepare, the signature checked is the loaded assertion's, its subject stays the client id, and the client becomes the owner |
| JwtBearerGrant.JwtBearerGrantType.PrepareGrantTypeResponse | src/Grant/JWTBearerGrantType.php:70-91 | the accumulator becomes `Prepare` of the old one on success; on failure it is untouched and the error is returned |
| JwtBearerGrant.JwtBearerGrantType.GrantAccessToken | src/Grant/JWTBearerGrantType.php:96-114 | the accumulator becomes `Grant` of the old one on success; on failure it is untouched |
| LegacyJwtBearerGrant.VariantsDifferOnlyWithoutSubject | lib/Grant/JWTBearerGrantType.php:33-48 | the older prepare agrees with the current one except on a JWS without `sub`, which it accepts with a null client id |
| LegacyJwtBearerGrant.CurrentVariantIsStricter | lib/Grant/JWTBearerGrantType.php:33-48 | every refusal of the older prepare is the current one's too, and every success of the current one is the older one's |
| LegacyJwtBearerGrant.JwtBearerGrantType.GetGrantType | lib/Grant/JWTBearerGrantType.php:25-28 | the same grant type URN |
| LegacyJwtBearerGrant.JwtBearerGrantType.PrepareGrantTypeResponse | lib/Grant/JWTBearerGrantType.php:33-48 | the accumulator becomes the older `Prepare` on success; on failure it is untouched |
| LegacyJwtBearerGrant.JwtBearerGrantType.GrantAccessToken | lib/Grant/JWTBearerGrantType.php:53-71 | the same grant phase as the current variant |
| NoneResponse.StateParams | src/Grant/NoneResponseType.php:65-71 | the params hold `state` iff the state is non-empty in PHP's sense, and nothing else |
| NoneResponse.Granted | src/Grant/NoneResponseType.php:61-72 | a creation error propagates; otherwise the answer is the state params |
| NoneResponse.ParamsIndependentOfToken | src/Grant/NoneResponseType.php:63-71 | the params do not depend on the created token, and carry no access token |
| NoneResponse.StateRoundTrip | src/Grant/NoneResponseType.php:65-69 | a state other than "" and "0" comes back unchanged; those two and null give no params |
| NoneResponse.NoneResponseType.GetResponseType | src/Grant/NoneResponseType.php:45-48 | `none` |
| NoneResponse.NoneResponseType.GetResponseMode | src/Grant/NoneResponseType.php:53-56 | `query` |
| NoneResponse.NoneResponseType.GrantAuthorization | src/Grant/NoneResponseType.php:61-72 | exactly one access token is created for the client, end user and scope, and added to the store; the answer is `Granted` |
| UrlCoding.DecodeEncode | src/Exception/RedirectException.php:57 | `urldecode` undoes `urlencode` on byte strings |
| UrlCoding.DecodeWithoutEscapes | src/Exception/RedirectException.php:57 | a string without `+` or `%` decodes to itself |
| UrlCoding.EncodeByte | src/Exception/RedirectException.php:57 | one byte encodes to itself, to `+`, or to `%` and two hex digits of its value |
| Redirect.ConstructOutcome | src/Exception/RedirectException.php:29-47 | a missing `redirect_uri` fails first with `redirect_uri_not_defined`; a missing or other transport mode fails with `invalid_transport_mode`; otherwise the fields come from data, and a non-null state is added to the error data |
| Redirect.Create | src/Exception/RedirectException.php:29-47 | construction fails exactly as `Construct` says; on success the status is 302 and the fields are `Construct`'s |
| Redirect.RedirectException.constructor | src/Exception/RedirectException.php:31 | the status is 302 |
| Redirect.RedirectException.GetResponseBody | src/Exception/RedirectException.php:49-51 | there is no body |
| Redirect.Decoded | src/Exception/RedirectException.php:53-57 | the copy has the same keys; only `error_uri` is URL-decoded |
| Redirect.LocationParams | src/Exception/RedirectException.php:59 | one entry, named after the transport mode, holding the decoded copy |
| Redirect.RedirectException.GetResponseHeaders | src/Exception/RedirectException.php:53-64 | exactly one header, Location, built from the redirect URI and those params |
| Redirect.ErrorUriRoundTrip | src/Exception/RedirectException.php:55-57 | an error URI stored URL-encoded reaches the Location as it was given |
| QueryMode.GetName | src/Endpoint/QueryResponseMode.php:13-16 | `query` |
| QueryMode.Params | src/Endpoint/QueryResponseMode.php:23 | empty data gives no params; other data is held under `query` |
| QueryMode.ParamsRecoverData | src/Endpoint/QueryResponseMode.php:23 | the data can be read back from the params |
| QueryMode.PrepareResponse | src/Endpoint/QueryResponseMode.php:21-27 | status 302, Location from the redirect URI and the params; other headers and the body are untouched |

## Left out

- HTTP and PSR-7 plumbing is out of scope: the request and response objects, stream writes, `json_encode`, `Uri::buildUri`, the exception manager and the configuration service. They are represented by maps, records and function parameters.
- Cryptography and encodings are function parameters: MD5, HMAC-SHA512, base64, the random-string generator and `rand`/`srand`. `srand()` reseeding is not modelled.
- Clock reads (`time()`) are the parameter `now`. `DigestData::isNonceExpired` compares against `microtime`, so it is left out.
- The JOSE loader, its `verifySignature` and the decrypter are parameters; decryption is not modelled. The current JWT-bearer constructor receives a verifier and a decrypter and stores neither, so they do not appear.
- Claims are modelled as strings; a `sub` claim of another JSON type is not.
- The Digest regular expression is not executed. The constructor takes the PREG_SET_ORDER matches it yields.
- The `!is_array($matches)` failure of the Digest constructor is not modelled, because `preg_match_all` always fills the array.
- `AccessTokenManager::getLifetime` is not part of this model, so the access-token lifetime is an input of `CreateAccessToken`.
- BaseException is not part of this model, so the error data it builds from error, description and URI is the parameter `baseData` of `Redirect.Create`. `Redirect.ErrorUriRoundTrip` states what follows when that data holds the URI URL-encoded.
- The configuration service's `get` on a key with a value of the wrong type is not modelled. Integers, strings and flags are three separate maps.
- `RevocationEndpoint::getRevocationMethods` without a refresh-token manager cannot happen, because the constructor demands one. The function keeps the case; the endpoint uses table entries for both kinds.
- The test registry's public client `foo` and the refresh tokens REFRESH_EFGH and VALID_REFRESH_TOKEN come from test fixtures that are not part of this model. `RevocationScenarios` uses the values the tests imply.
- Not every test is its own lemma:
  - The revocation tests with and without callback share one lemma each.
  - `testAccessTokenRevokedForNotAuthenticatedPublicClientWithCallbackAndTypeHint` is covered by `RevocationScenarios.AccessTokenRevokedAnonymouslyWithoutCascade` together with `RevocationScenarios.AccessTokenAndTypeHint`.
- `findClient` raising an exception outside the library's `BaseExceptionInterface` family is not modelled. The source does not catch it, so it would escape the endpoint; `Revocation.ClientLookup` has no case for it.
- Object identity and aliasing of the token objects are not modelled. A token is a value, and revocation removes it by its string.
- Every PHP string is a Dafny string whose characters stand for bytes. So `strlen` is the sequence length (as in `Tokens.CheckGenerated`), `strtolower`/`strtoupper` act on ASCII letters only, and UrlCoding's `urlencode`/`urldecode` work on characters below 256. Multi-byte text such as UTF-8 is not modelled; a generator result like `é` counts as one byte here, where PHP counts two.
- RefreshTokenManagement.RefreshTokenManager: the source's manager is abstract. `addRefreshToken` is an abstract hook (src/Token/RefreshTokenManager.php:51); get, revoke and mark-as-used exist only as interface methods. The dictionary store, `used := false` at creation included, is the model's own implementation of those hooks, after the access-token test stub. The constructor's exception manager and configuration are not kept; the configuration is passed to each call.
- PasswordClientManagerStub.PasswordClientManager.CreateClients: the `updateClientCredentials` call on each fixture belongs to a base class that is not part of this model, so it is not applied. The fixtures keep the plaintext secrets the setters give them.
- Redirect.Construct: the values of `data` are typed as strings or null. The loose `in_array` of the transport-mode check agrees with a strict one on those values; a non-string value such as `true` is not modelled.
- Digest.DigestData.CalculateServerDigestUsingA1MD5: the refusal branch for a qop other than `auth` and `auth-int` follows the corrected `Digest.UnsupportedQop` of the finding below. `Digest.UnsupportedQopAsWritten` models line 194 as written: a construction failure for a non-decimal qop, and the `%s` message for a decimal one.
- Digest.DigestData.CalculateServerDigestUsingA1MD5 and Digest.DigestData.CalculateServerDigestUsingPassword: the default arguments `$algorithm = 'MD5'` and `$content_hash = ''` are not defaults here; every caller passes both explicitly.
- Digest.UnsupportedQopAsWritten: PHP's acceptance of a string as an `int` argument is taken as a non-empty run of decimal digits. Signs, surrounding whitespace, leading-numeric strings and floats are not modelled.
- `Digest.DigestData.GetResponse`: for an absent `response` directive, PHP reads null; the contract speaks only of a present one.

## Findings

| source | as written | input that shows it | evidently intended | confidence | as-written member | corrected member |
|---|---|---|---|---|---|---|
| src/Util/DigestData.php:194 | the qop is passed as the exception's second argument, the integer `$code`, instead of being formatted into the message | qop `auth-conf`: building the `InvalidArgumentException` itself fails (an `Error` on PHP 7, a `TypeError` on PHP 8), which a `catch (\Exception)` does not catch; qop `1`: the message reads `This method does not support a qop: "%s".` | `sprintf` the qop into the message, as for the other messages of the class | not executed | Digest.UnsupportedQopAsWritten (Digest.UnsupportedQopAsWrittenMissesIntent) | Digest.UnsupportedQop (Digest.UnsupportedQopNamesQop) |
