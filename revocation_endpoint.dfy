/** The token revocation endpoint of RFC 7009 (section 2.1 request, section
    2.2 response, section 2.2.1 `unsupported_token_type`, section 2.3 JSONP
    callbacks), as one run over explicit inputs: the request's query, body
    and server parameters, the outcome of the client lookup, the client
    registry, the configuration and the two token stores.

    The run: extract the parameters (query wins over body), require a
    secured request, require a `token`, resolve the client on a best-effort
    basis, dispatch on the hint, check ownership, cascade from an access
    token to its paired refresh token, and write the status and the
    JSONP-or-empty body. The decision procedure is given as functions over
    store values (`RevokeSpec` and its parts); the `Endpoint` class runs the
    same steps against the two store objects and is proved to agree. */
module Revocation {
  import opened Common
  import opened Clients
  import opened Tokens
  import AccessTokenManagement
  import RefreshTokenManagement

  datatype Request = Request(
    query: map<string, string>,
    body: map<string, string>,
    server: map<string, string>)

  /** How `findClient` ended: with a client, or with one of the library's
      own exceptions (`BaseExceptionInterface`) that is an authentication
      challenge (its status and its JSON-encoded response data) or an
      internal server error, or without a client (it returned null or raised
      any other exception of that family): the anonymous case. Exceptions
      outside that family are not caught by the source and are not
      modelled. */
  datatype ClientLookup =
    | Authenticated(client: Client)
    | AuthenticateFailure(status: int, data: string)
    | InternalFailure(error: Error)
    | OtherFailure

  /** Status and body of the response; the body is the text written to the
      response's stream. */
  datatype Response = Response(status: int, body: string)

  /** A run either writes the response or lets an exception escape. */
  datatype Outcome = Responded(response: Response) | Raised(error: Error)

  /** The contents of the two token stores. */
  datatype Stores = Stores(access: map<string, AccessToken>, refresh: map<string, RefreshToken>)

  datatype TokenKind = AccessTokenKind | RefreshTokenKind

  /** The endpoint's collaborators: the registry behind `getClient`, the
      configuration, and the exception's `getResponseBody` (the JSON error
      document, whose encoding is not part of this model). */
  datatype Settings = Settings(
    registry: map<string, Client>,
    config: Configuration,
    errorBody: Error -> string)

  const CascadeKey := "revoke_refresh_token_and_access_token"

  /** Whether revoking an access token also revokes its refresh token. */
  function Cascades(s: Settings): (r: bool)
    ensures CascadeKey !in s.config.flags ==> r
  {
    s.config.GetFlag(CascadeKey, true)
  }

  // -----------------------------------------------------------------------
  // Parameters and transport security
  // -----------------------------------------------------------------------

  const ParameterKeys: seq<string> := ["token", "token_type_hint", "callback"]

  /** One parameter: the query's value when the key is there, else the
      body's, else null. */
  function Parameter(query: map<string, string>, body: map<string, string>, key: string): (r: Option<string>)
    ensures key in query ==> r == Some(query[key])
    ensures key !in query && key in body ==> r == Some(body[key])
    ensures key !in query && key !in body ==> r == None
  {
    if key in query then Some(query[key])
    else if key in body then Some(body[key])
    else None
  }

  function Token(r: Request): Option<string> { Parameter(r.query, r.body, "token") }
  function Hint(r: Request): Option<string> { Parameter(r.query, r.body, "token_type_hint") }
  function Callback(r: Request): Option<string> { Parameter(r.query, r.body, "callback") }

  /** `getParameters`: one pass over the three keys, each resolved with
      query-over-body precedence. */
  method GetParameters(request: Request) returns (token: Option<string>, hint: Option<string>, callback: Option<string>)
    ensures token == Token(request)
    ensures hint == Hint(request)
    ensures callback == Callback(request)
  {
    var values: seq<Option<string>> := [];
    for i := 0 to |ParameterKeys|
      invariant |values| == i
      invariant forall j :: 0 <= j < i ==> values[j] == Parameter(request.query, request.body, ParameterKeys[j])
    {
      var key := ParameterKeys[i];
      var value := if key in request.query then Some(request.query[key])
                   else if key in request.body then Some(request.body[key])
                   else None;
      values := values + [value];
    }
    token, hint, callback := values[0], values[1], values[2];
  }

  /** "off" written in any mix of letter cases. */
  predicate IsOffInAnyCase(v: string) {
    |v| == 3 && (v[0] == 'o' || v[0] == 'O') && (v[1] == 'f' || v[1] == 'F') && (v[2] == 'f' || v[2] == 'F')
  }

  /** `strtolower` yields "off" for exactly the case variants of "off". */
  lemma LowersToOff(v: string)
    ensures ToLower(v) == "off" <==> IsOffInAnyCase(v)
  {
    var l := ToLower(v);
    if |v| == 3 {
      if l[0] == 'o' && l[1] == 'f' && l[2] == 'f' {
        assert l == "off";
      }
    } else {
      assert |l| != |"off"|;
    }
  }

  /** `isRequestSecured`: the `HTTPS` server parameter is non-empty in PHP's
      sense and is not "off" in any letter case. */
  function IsRequestSecured(server: map<string, string>): (r: bool)
    ensures r <==> "HTTPS" in server && server["HTTPS"] != "" && server["HTTPS"] != "0" &&
                   !IsOffInAnyCase(server["HTTPS"])
  {
    "HTTPS" in server &&
    (LowersToOff(server["HTTPS"]);
     !PhpEmpty(Some(server["HTTPS"])) && ToLower(server["HTTPS"]) != "off")
  }

  /** The transport-security check on the values a server reports: absent,
      "", "0" and "off" in any case are insecure; "on" and "1" are secure. */
  lemma RequestSecurityExamples()
    ensures !IsRequestSecured(map[])
    ensures !IsRequestSecured(map["HTTPS" := ""]) && !IsRequestSecured(map["HTTPS" := "0"])
    ensures !IsRequestSecured(map["HTTPS" := "off"]) && !IsRequestSecured(map["HTTPS" := "OFF"])
    ensures !IsRequestSecured(map["HTTPS" := "Off"])
    ensures IsRequestSecured(map["HTTPS" := "on"]) && IsRequestSecured(map["HTTPS" := "1"])
  {
    assert !IsOffInAnyCase("on") && !IsOffInAnyCase("1");
    assert IsOffInAnyCase("off") && IsOffInAnyCase("OFF") && IsOffInAnyCase("Off");
  }

  // -----------------------------------------------------------------------
  // Dispatch table and response
  // -----------------------------------------------------------------------

  /** `getRevocationMethods`: the hint names in the order they are tried;
      refresh tokens only when a refresh-token manager is configured. */
  function GetRevocationMethods(hasRefreshManager: bool): (methods: seq<(string, TokenKind)>)
    ensures |methods| == if hasRefreshManager then 2 else 1
    ensures methods[0] == ("access_token", AccessTokenKind)
    ensures hasRefreshManager ==> methods[1] == ("refresh_token", RefreshTokenKind)
  {
    [("access_token", AccessTokenKind)] + if hasRefreshManager then [("refresh_token", RefreshTokenKind)] else []
  }

  /** `array_key_exists(hint, methods)` and the method it names. */
  function MethodFor(methods: seq<(string, TokenKind)>, name: string): (r: Option<TokenKind>)
    ensures r.None? <==> forall i :: 0 <= i < |methods| ==> methods[i].0 != name
    ensures r.Some? ==> exists i :: 0 <= i < |methods| && methods[i] == (name, r.value)
  {
    if methods == [] then None
    else if methods[0].0 == name then Some(methods[0].1)
    else MethodFor(methods[1..], name)
  }

  /** `getResponseContent`: writes `callback(content)` to the body when a
      callback was given, and sets the status. */
  function GetResponseContent(response: Response, content: string, callback: Option<string>, code: int): (r: Response)
    ensures r.status == code
    ensures callback.None? ==> r.body == response.body
    ensures callback.Some? ==> r.body == response.body + callback.value + "(" + content + ")"
  {
    Response(code, if callback.Some? then response.body + callback.value + "(" + content + ")" else response.body)
  }

  const NotSecured := Error(BadRequest, InvalidRequest, "Request must be secured")
  const TokenMissing := Error(BadRequest, InvalidRequest, "Parameter \"token\" is missing")

  function UnsupportedHint(hint: string): (e: Error)
    ensures e.status == NotImplemented && e.code == UnsupportedTokenType
  {
    Error(NotImplemented, UnsupportedTokenType, "Token type \"" + hint + "\" not supported")
  }

  // -----------------------------------------------------------------------
  // Ownership and the per-kind revocations, over store contents
  // -----------------------------------------------------------------------

  /** `isClientVerified`: with an authenticated client, the token must be
      that client's; anonymously, the owner must not be a registered
      confidential client (an unknown owner counts as revocable). */
  predicate IsClientVerified(ownerId: string, client: Option<Client>, registry: map<string, Client>) {
    match client
    case Some(c) => ownerId == c.publicId
    case None => !(ownerId in registry && registry[ownerId].confidential)
  }

  /** The ownership rule for a confidential client's token: that client,
      once authenticated, may revoke it; no other authenticated client and
      no anonymous request may. A token of a public client, or of a client
      the registry does not know, is revocable anonymously. */
  lemma OwnershipRule(ownerId: string, client: Option<Client>, registry: map<string, Client>)
    ensures ownerId in registry && registry[ownerId].confidential ==>
              && !IsClientVerified(ownerId, None, registry)
              && (client.Some? ==> (IsClientVerified(ownerId, client, registry) <==> client.value.publicId == ownerId))
    ensures (ownerId !in registry || !registry[ownerId].confidential) ==> IsClientVerified(ownerId, None, registry)
    ensures client.Some? && client.value.publicId != ownerId ==> !IsClientVerified(ownerId, client, registry)
  {
  }

  /** `tryRevokeRefreshToken` on the refresh store's contents. */
  function TryRevokeRefresh(refresh: map<string, RefreshToken>, token: string, client: Option<Client>,
                            registry: map<string, Client>): map<string, RefreshToken>
  {
    if token in refresh && IsClientVerified(refresh[token].clientPublicId, client, registry)
    then refresh - {token}
    else refresh
  }

  /** `tryRevokeAccessToken`: a verified access token is removed, after its
      paired refresh token has been tried under the same ownership rule
      when the configuration asks for the cascade. */
  function TryRevokeAccess(st: Stores, token: string, client: Option<Client>,
                           registry: map<string, Client>, cascade: bool): Stores
  {
    if token in st.access && IsClientVerified(st.access[token].clientPublicId, client, registry) then
      var paired := st.access[token].refreshToken;
      var refresh := if cascade && paired.Some? then TryRevokeRefresh(st.refresh, paired.value, client, registry)
                     else st.refresh;
      Stores(st.access - {token}, refresh)
    else st
  }

  function ApplyKind(st: Stores, kind: TokenKind, token: string, client: Option<Client>,
                     registry: map<string, Client>, cascade: bool): Stores
  {
    match kind
    case AccessTokenKind => TryRevokeAccess(st, token, client, registry, cascade)
    case RefreshTokenKind => Stores(st.access, TryRevokeRefresh(st.refresh, token, client, registry))
  }

  /** The methods tried in order, as `revokeToken`'s loop does. */
  function RevokeKinds(st: Stores, methods: seq<(string, TokenKind)>, token: string, client: Option<Client>,
                       registry: map<string, Client>, cascade: bool): Stores
    decreases |methods|
  {
    if methods == [] then st
    else ApplyKind(RevokeKinds(st, methods[..|methods| - 1], token, client, registry, cascade),
                   methods[|methods| - 1].1, token, client, registry, cascade)
  }

  /** `revokeToken`: no hint tries every method; a known hint tries its
      method only; an unknown hint is `unsupported_token_type` (501). Every
      path that is not that error ends with status 200 and empty content. */
  function RevokeTokenSpec(s: Settings, st: Stores, response: Response, token: string, hint: Option<string>,
                           client: Option<Client>, callback: Option<string>): (Response, Stores)
  {
    var methods := GetRevocationMethods(true);
    if hint.None? then
      (GetResponseContent(response, "", callback, 200),
       RevokeKinds(st, methods, token, client, s.registry, Cascades(s)))
    else if MethodFor(methods, hint.value).Some? then
      (GetResponseContent(response, "", callback, 200),
       ApplyKind(st, MethodFor(methods, hint.value).value, token, client, s.registry, Cascades(s)))
    else
      (GetResponseContent(response, s.errorBody(UnsupportedHint(hint.value)), callback, NotImplemented), st)
  }

  /** `revoke`: the whole run, as a function of the request, the lookup
      outcome and the stores' contents. */
  function RevokeSpec(s: Settings, request: Request, lookup: ClientLookup, response: Response, st: Stores): (Outcome, Stores)
  {
    var token := Token(request);
    var callback := Callback(request);
    if !IsRequestSecured(request.server) then
      (Responded(GetResponseContent(response, s.errorBody(NotSecured), callback, NotSecured.status)), st)
    else if token.None? then
      (Responded(GetResponseContent(response, s.errorBody(TokenMissing), callback, TokenMissing.status)), st)
    else
      match lookup
      case InternalFailure(e) => (Raised(e), st)
      case AuthenticateFailure(status, data) => (Responded(GetResponseContent(response, data, callback, status)), st)
      case OtherFailure =>
        var (r, st') := RevokeTokenSpec(s, st, response, token.value, Hint(request), None, callback);
        (Responded(r), st')
      case Authenticated(c) =>
        var (r, st') := RevokeTokenSpec(s, st, response, token.value, Hint(request), Some(c), callback);
        (Responded(r), st')
  }

  // -----------------------------------------------------------------------
  // The endpoint object, working on the two stores in place
  // -----------------------------------------------------------------------

  class Endpoint {
    const accessTokens: AccessTokenManagement.AccessTokenManager
    const refreshTokens: RefreshTokenManagement.RefreshTokenManager
    const settings: Settings

    ghost predicate Valid()
      reads this, accessTokens, refreshTokens
    {
      accessTokens.Valid() && refreshTokens.Valid()
    }

    ghost function State(): Stores
      reads this, accessTokens, refreshTokens
    {
      Stores(accessTokens.accessTokens, refreshTokens.refreshTokens)
    }

    /** The constructor's signature requires a refresh-token manager, so
        the refresh kind is always among the revocation methods. */
    constructor (accessTokens: AccessTokenManagement.AccessTokenManager,
                 refreshTokens: RefreshTokenManagement.RefreshTokenManager, settings: Settings)
      ensures this.accessTokens == accessTokens && this.refreshTokens == refreshTokens
      ensures this.settings == settings
    {
      this.accessTokens := accessTokens;
      this.refreshTokens := refreshTokens;
      this.settings := settings;
    }

    method TryRevokeRefreshToken(token: string, client: Option<Client>)
      requires Valid()
      modifies refreshTokens
      ensures Valid()
      ensures refreshTokens.refreshTokens == TryRevokeRefresh(old(refreshTokens.refreshTokens), token, client, settings.registry)
    {
      var found := refreshTokens.GetRefreshToken(token);
      if found.Some? && IsClientVerified(found.value.clientPublicId, client, settings.registry) {
        refreshTokens.RevokeRefreshToken(found.value);
      }
    }

    method TryRevokeAccessToken(token: string, client: Option<Client>)
      requires Valid()
      modifies accessTokens, refreshTokens
      ensures Valid()
      ensures State() == TryRevokeAccess(old(State()), token, client, settings.registry, Cascades(settings))
    {
      var found := accessTokens.GetAccessToken(token);
      if found.Some? && IsClientVerified(found.value.clientPublicId, client, settings.registry) {
        if Cascades(settings) && found.value.refreshToken.Some? {
          TryRevokeRefreshToken(found.value.refreshToken.value, client);
        }
        accessTokens.RevokeAccessToken(found.value);
      }
    }

    method ApplyMethod(kind: TokenKind, token: string, client: Option<Client>)
      requires Valid()
      modifies accessTokens, refreshTokens
      ensures Valid()
      ensures State() == ApplyKind(old(State()), kind, token, client, settings.registry, Cascades(settings))
    {
      match kind
      case AccessTokenKind => TryRevokeAccessToken(token, client);
      case RefreshTokenKind => TryRevokeRefreshToken(token, client);
    }

    method RevokeToken(response: Response, token: string, hint: Option<string>, client: Option<Client>,
                       callback: Option<string>) returns (response': Response)
      requires Valid()
      modifies accessTokens, refreshTokens
      ensures Valid()
      ensures (response', State()) == RevokeTokenSpec(settings, old(State()), response, token, hint, client, callback)
    {
      var methods := GetRevocationMethods(true);
      if hint.None? {
        for i := 0 to |methods|
          invariant Valid()
          invariant State() == RevokeKinds(old(State()), methods[..i], token, client, settings.registry, Cascades(settings))
        {
          assert methods[..i + 1][..i] == methods[..i];
          ApplyMethod(methods[i].1, token, client);
        }
        assert methods[..|methods|] == methods;
      } else {
        var kind := MethodFor(methods, hint.value);
        if kind.Some? {
          ApplyMethod(kind.value, token, client);
        } else {
          var e := UnsupportedHint(hint.value);
          return GetResponseContent(response, settings.errorBody(e), callback, e.status);
        }
      }
      response' := GetResponseContent(response, "", callback, 200);
    }

    method Revoke(request: Request, lookup: ClientLookup, response: Response) returns (outcome: Outcome)
      requires Valid()
      modifies accessTokens, refreshTokens
      ensures Valid()
      ensures (outcome, State()) == RevokeSpec(settings, request, lookup, response, old(State()))
    {
      var token, hint, callback := GetParameters(request);
      if !IsRequestSecured(request.server) {
        return Responded(GetResponseContent(response, settings.errorBody(NotSecured), callback, NotSecured.status));
      }
      if token.None? {
        return Responded(GetResponseContent(response, settings.errorBody(TokenMissing), callback, TokenMissing.status));
      }
      var client: Option<Client> := None;
      match lookup {
        case InternalFailure(e) =>
          return Raised(e);
        case AuthenticateFailure(status, data) =>
          return Responded(GetResponseContent(response, data, callback, status));
        case OtherFailure =>
          client := None;
        case Authenticated(c) =>
          client := Some(c);
      }
      var r := RevokeToken(response, token.value, hint, client, callback);
      outcome := Responded(r);
    }
  }
}
