/** The functional revocation tests, each as a lemma about the run they
    make: the fixture registry (bar, baz and Mufasa are confidential
    password clients, foo a public client), the seeded access store (ABCD
    owned by bar; EFGH owned by foo and paired with REFRESH_EFGH) and a
    refresh store holding REFRESH_EFGH and VALID_REFRESH_TOKEN, both owned
    by foo. The public client and the refresh store's contents come from
    test fixtures that are not part of this model; the values here are the
    ones the tests imply. A fresh response has status 200 and an empty
    body; the JSON error documents are left as `errorBody`. */
module RevocationScenarios {
  import opened Common
  import opened Clients
  import opened Tokens
  import opened Revocation
  import opened RevocationProperties
  import AccessTokenManagement
  import PasswordClientManagerStub

  const Foo := Client("foo", false, false, [], None, [], NoLifetimeExtension)

  function Registry(): map<string, Client> {
    PasswordClientManagerStub.Fixtures()["foo" := Foo]
  }

  function RefreshFixtures(now: int): map<string, RefreshToken> {
    map["REFRESH_EFGH" := RefreshToken("REFRESH_EFGH", "foo", None, [], now + 3600, false),
        "VALID_REFRESH_TOKEN" := RefreshToken("VALID_REFRESH_TOKEN", "foo", None, [], now + 3600, false)]
  }

  function Initial(now: int): Stores {
    Stores(AccessTokenManagement.SeededAccessTokens(now), RefreshFixtures(now))
  }

  /** The test configuration, with the cascade flag as given. */
  function TestSettings(cascade: bool, errorBody: Error -> string): (s: Settings)
    ensures Cascades(s) == cascade
  {
    Settings(Registry(), Configuration(map[], map[], map[CascadeKey := cascade]), errorBody)
  }

  const Fresh := Response(200, "")
  const Secured: map<string, string> := map["HTTPS" := "on"]

  function Post(body: map<string, string>, server: map<string, string>): Request {
    Request(map[], body, server)
  }

  /** testRequestNotSecured and its callback variant: no `HTTPS`, so 400
      and ABCD stays. */
  lemma RequestNotSecured(now: int, errorBody: Error -> string, callback: Option<string>)
    ensures var body := if callback.Some? then map["token" := "ABCD", "callback" := callback.value] else map["token" := "ABCD"];
            var server := map["PHP_AUTH_USER" := "bar", "PHP_AUTH_PW" := "secret"];
            var (outcome, after) := RevokeSpec(TestSettings(true, errorBody), Post(body, server), Authenticated(PasswordClientManagerStub.Bar), Fresh, Initial(now));
            && outcome.Responded? && outcome.response.status == 400
            && outcome.response.body == (if callback.Some? then callback.value + "(" + errorBody(NotSecured) + ")" else "")
            && "ABCD" in after.access
  {
  }

  /** testMissingTokenParameter, and testAccessTokenNotForAuthenticatedClient
      (baz authenticated, no token): 400, ABCD stays. */
  lemma MissingTokenParameter(now: int, errorBody: Error -> string, client: Client, callback: Option<string>)
    ensures var body := if callback.Some? then map["callback" := callback.value] else map[];
            var (outcome, after) := RevokeSpec(TestSettings(true, errorBody), Post(body, Secured), Authenticated(client), Fresh, Initial(now));
            && outcome.Responded? && outcome.response.status == 400
            && outcome.response.body == (if callback.Some? then callback.value + "(" + errorBody(TokenMissing) + ")" else "")
            && "ABCD" in after.access
  {
  }

  /** testAccessTokenRevokedForAuthenticatedConfidentialClient and its
      callback variant: bar revokes its own ABCD; 200 with "" or "cb()". */
  lemma AccessTokenRevokedForAuthenticatedConfidentialClient(now: int, errorBody: Error -> string, callback: Option<string>)
    ensures var body := if callback.Some? then map["token" := "ABCD", "callback" := callback.value] else map["token" := "ABCD"];
            var (outcome, after) := RevokeSpec(TestSettings(true, errorBody), Post(body, Secured), Authenticated(PasswordClientManagerStub.Bar), Fresh, Initial(now));
            && outcome == Responded(Response(200, if callback.Some? then callback.value + "()" else ""))
            && "ABCD" !in after.access
  {
    var body := if callback.Some? then map["token" := "ABCD", "callback" := callback.value] else map["token" := "ABCD"];
    VerifiedAccessTokenIsRevoked(TestSettings(true, errorBody), Post(body, Secured), Authenticated(PasswordClientManagerStub.Bar), Fresh, Initial(now));
  }

  /** testAccessTokenRevokedForAuthenticatedPublicClient and its callback
      variant: foo revokes EFGH, and the cascade removes REFRESH_EFGH. */
  lemma AccessTokenRevokedForAuthenticatedPublicClient(now: int, errorBody: Error -> string, callback: Option<string>)
    ensures var body := if callback.Some? then map["token" := "EFGH", "callback" := callback.value] else map["token" := "EFGH"];
            var (outcome, after) := RevokeSpec(TestSettings(true, errorBody), Post(body, Secured), Authenticated(Foo), Fresh, Initial(now));
            && outcome == Responded(Response(200, if callback.Some? then callback.value + "()" else ""))
            && "EFGH" !in after.access && "REFRESH_EFGH" !in after.refresh
  {
    var body := if callback.Some? then map["token" := "EFGH", "callback" := callback.value] else map["token" := "EFGH"];
    VerifiedAccessTokenIsRevoked(TestSettings(true, errorBody), Post(body, Secured), Authenticated(Foo), Fresh, Initial(now));
  }

  /** testAccessTokenNotRevokedForAuthenticatedPublicClient and its callback
      variant: the unknown public id bam is an authentication failure (401);
      both tokens stay. */
  lemma AccessTokenNotRevokedForUnknownPublicClient(now: int, errorBody: Error -> string, data: string, callback: Option<string>)
    ensures var body := if callback.Some? then map["token" := "EFGH", "callback" := callback.value] else map["token" := "EFGH"];
            var (outcome, after) := RevokeSpec(TestSettings(true, errorBody), Post(body, Secured), AuthenticateFailure(401, data), Fresh, Initial(now));
            && outcome == Responded(Response(401, if callback.Some? then callback.value + "(" + data + ")" else ""))
            && after == Initial(now)
  {
  }

  /** testAccessTokenRevokedForNotAuthenticatedPublicClient and its callback
      variant: with the cascade off, anonymous revocation of foo's EFGH
      removes it and keeps REFRESH_EFGH. */
  lemma AccessTokenRevokedAnonymouslyWithoutCascade(now: int, errorBody: Error -> string, callback: Option<string>)
    ensures var body := if callback.Some? then map["token" := "EFGH", "callback" := callback.value] else map["token" := "EFGH"];
            var (outcome, after) := RevokeSpec(TestSettings(false, errorBody), Post(body, Secured), OtherFailure, Fresh, Initial(now));
            && outcome == Responded(Response(200, if callback.Some? then callback.value + "()" else ""))
            && "EFGH" !in after.access && "REFRESH_EFGH" in after.refresh
  {
    var body := if callback.Some? then map["token" := "EFGH", "callback" := callback.value] else map["token" := "EFGH"];
    VerifiedAccessTokenIsRevoked(TestSettings(false, errorBody), Post(body, Secured), OtherFailure, Fresh, Initial(now));
    NoCascadeKeepsRefreshTokens(TestSettings(false, errorBody), Post(body, Secured), OtherFailure, Fresh, Initial(now));
    var after := RevokeSpec(TestSettings(false, errorBody), Post(body, Secured), OtherFailure, Fresh, Initial(now)).1;
    assert Token(Post(body, Secured)) == Some("EFGH");
    RemovesOnlyKeeps(Initial(now).refresh, after.refresh, {"EFGH"}, "REFRESH_EFGH");
  }

  /** The hinted tests: with `access_token` EFGH goes, with `refresh_token`
      it stays; both answer 200. */
  lemma AccessTokenAndTypeHint(now: int, errorBody: Error -> string, hint: string)
    requires hint == "access_token" || hint == "refresh_token"
    ensures var body := map["token" := "EFGH", "token_type_hint" := hint];
            var (outcome, after) := RevokeSpec(TestSettings(true, errorBody), Post(body, Secured), OtherFailure, Fresh, Initial(now));
            && outcome == Responded(Response(200, ""))
            && ("EFGH" in after.access <==> hint == "refresh_token")
  {
    var body := map["token" := "EFGH", "token_type_hint" := hint];
    var req := Post(body, Secured);
    if hint == "access_token" {
      VerifiedAccessTokenIsRevoked(TestSettings(true, errorBody), req, OtherFailure, Fresh, Initial(now));
    } else {
      RefreshHintKeepsAccessTokens(TestSettings(true, errorBody), req, OtherFailure, Fresh, Initial(now));
      assert MethodFor(GetRevocationMethods(true), "refresh_token") == Some(RefreshTokenKind);
    }
  }

  /** testRefreshTokenRevokedForNotAuthenticatedPublicClient: the refresh
      token is revoked anonymously; no access token of that name exists
      before or after. */
  lemma RefreshTokenRevokedAnonymously(now: int, errorBody: Error -> string)
    ensures var body := map["token" := "VALID_REFRESH_TOKEN"];
            var (outcome, after) := RevokeSpec(TestSettings(true, errorBody), Post(body, Secured), OtherFailure, Fresh, Initial(now));
            && outcome == Responded(Response(200, ""))
            && "VALID_REFRESH_TOKEN" !in after.refresh && "VALID_REFRESH_TOKEN" !in after.access
  {
    var req := Post(map["token" := "VALID_REFRESH_TOKEN"], Secured);
    VerifiedRefreshTokenIsRevoked(TestSettings(true, errorBody), req, OtherFailure, Fresh, Initial(now));
    RevocationOnlyRemovesNamedTokens(TestSettings(true, errorBody), req, OtherFailure, Fresh, Initial(now));
  }

  /** testFooTokenNotSupported and its callback variant: a hint naming no
      token kind is answered with 501, with the `unsupported_token_type`
      document as JSONP content, and nothing changes. */
  lemma FooTokenNotSupported(now: int, errorBody: Error -> string, callback: Option<string>)
    ensures var hinted := map["token" := "VALID_REFRESH_TOKEN", "token_type_hint" := "foo_token"];
            var body := if callback.Some? then hinted["callback" := callback.value] else hinted;
            var (outcome, after) := RevokeSpec(TestSettings(true, errorBody), Post(body, Secured), OtherFailure, Fresh, Initial(now));
            && outcome == Responded(Response(501, if callback.Some?
                                                  then callback.value + "(" + errorBody(UnsupportedHint("foo_token")) + ")"
                                                  else ""))
            && after == Initial(now)
  {
    var hinted := map["token" := "VALID_REFRESH_TOKEN", "token_type_hint" := "foo_token"];
    var body := if callback.Some? then hinted["callback" := callback.value] else hinted;
    UnsupportedHintIsRejected(TestSettings(true, errorBody), Post(body, Secured), OtherFailure, Fresh, Initial(now));
  }

  /** Anonymous revocation of bar's ABCD is refused silently: 200, and the
      token stays, because bar is confidential. */
  lemma ConfidentialTokenSurvivesAnonymousRevocation(now: int, errorBody: Error -> string)
    ensures var req := Post(map["token" := "ABCD"], Secured);
            var (outcome, after) := RevokeSpec(TestSettings(true, errorBody), req, OtherFailure, Fresh, Initial(now));
            && outcome == Responded(Response(200, ""))
            && "ABCD" in after.access
  {
    var req := Post(map["token" := "ABCD"], Secured);
    AnonymousRevocationSparesConfidentialClients(TestSettings(true, errorBody), req, Fresh, Initial(now));
    assert RegisteredConfidential("bar", Registry());
  }
}
