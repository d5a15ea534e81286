/** What a revocation run may and must do to the two token stores, and what
    it answers: a run removes at most the named token and the refresh token
    paired with it, only tokens whose owner passes the ownership check, it
    is idempotent, and its status follows the order of the checks. */
module RevocationProperties {
  import opened Common
  import opened Clients
  import opened Tokens
  import opened Revocation

  /** The client a lookup outcome hands to `revokeToken`. */
  function ResolvedClient(lookup: ClientLookup): (c: Option<Client>)
    ensures c.Some? <==> lookup.Authenticated?
  {
    if lookup.Authenticated? then Some(lookup.client) else None
  }

  /** The refresh token an access token names, if that access token is in
      the store. */
  function Paired(st: Stores, token: string): (p: set<string>)
    ensures |p| <= 1
    ensures p != {} <==> token in st.access && st.access[token].refreshToken.Some?
  {
    if token in st.access && st.access[token].refreshToken.Some?
    then {st.access[token].refreshToken.value} else {}
  }

  /** `after` is `before` with some of the keys in `allowed` removed. */
  ghost predicate RemovesOnly<V>(before: map<string, V>, after: map<string, V>, allowed: set<string>) {
    && after.Keys <= before.Keys
    && (forall k :: k in after ==> after[k] == before[k])
    && before.Keys - after.Keys <= allowed
  }

  /** A key outside `allowed` survives with its value. */
  lemma RemovesOnlyKeeps<V>(before: map<string, V>, after: map<string, V>, allowed: set<string>, k: string)
    requires RemovesOnly(before, after, allowed) && k in before && k !in allowed
    ensures k in after && after[k] == before[k]
  {
    assert k !in before.Keys - after.Keys;
  }

  /** Every token that disappeared passed the ownership check. */
  ghost predicate RemovedWereVerified(before: Stores, after: Stores, client: Option<Client>, registry: map<string, Client>) {
    && (forall k :: k in before.access && k !in after.access ==>
          IsClientVerified(before.access[k].clientPublicId, client, registry))
    && (forall k :: k in before.refresh && k !in after.refresh ==>
          IsClientVerified(before.refresh[k].clientPublicId, client, registry))
  }

  /** The whole bound on one run for `token`. */
  ghost predicate Bounded(before: Stores, after: Stores, token: string, client: Option<Client>, registry: map<string, Client>) {
    && RemovesOnly(before.access, after.access, {token})
    && RemovesOnly(before.refresh, after.refresh, {token} + Paired(before, token))
    && RemovedWereVerified(before, after, client, registry)
  }

  lemma BoundedTransitive(a: Stores, b: Stores, c: Stores, token: string, client: Option<Client>, registry: map<string, Client>)
    requires Bounded(a, b, token, client, registry) && Bounded(b, c, token, client, registry)
    ensures Bounded(a, c, token, client, registry)
  {
    assert Paired(b, token) <= Paired(a, token);
  }

  lemma ApplyKindIsBounded(st: Stores, kind: TokenKind, token: string, client: Option<Client>,
                           registry: map<string, Client>, cascade: bool)
    ensures Bounded(st, ApplyKind(st, kind, token, client, registry, cascade), token, client, registry)
  {
  }

  lemma {:induction false} RevokeKindsIsBounded(st: Stores, methods: seq<(string, TokenKind)>, token: string,
                                                client: Option<Client>, registry: map<string, Client>, cascade: bool)
    ensures Bounded(st, RevokeKinds(st, methods, token, client, registry, cascade), token, client, registry)
    decreases |methods|
  {
    if methods != [] {
      var prefix := methods[..|methods| - 1];
      var mid := RevokeKinds(st, prefix, token, client, registry, cascade);
      RevokeKindsIsBounded(st, prefix, token, client, registry, cascade);
      ApplyKindIsBounded(mid, methods[|methods| - 1].1, token, client, registry, cascade);
      BoundedTransitive(st, mid, RevokeKinds(st, methods, token, client, registry, cascade), token, client, registry);
    }
  }

  lemma RevokeTokenSpecIsBounded(s: Settings, st: Stores, response: Response, token: string, hint: Option<string>,
                                 client: Option<Client>, callback: Option<string>)
    ensures Bounded(st, RevokeTokenSpec(s, st, response, token, hint, client, callback).1, token, client, s.registry)
  {
    var methods := GetRevocationMethods(true);
    if hint.None? {
      RevokeKindsIsBounded(st, methods, token, client, s.registry, Cascades(s));
    } else if MethodFor(methods, hint.value).Some? {
      ApplyKindIsBounded(st, MethodFor(methods, hint.value).value, token, client, s.registry, Cascades(s));
    }
  }

  /** The frame of a revocation run: access tokens other than the one named
      by the `token` parameter stay as they are, refresh tokens other than
      that one and the refresh token paired with it stay as they are,
      nothing is added or modified, and whatever disappears passed the
      ownership check against the resolved client. Without a token nothing
      changes. */
  lemma RevocationOnlyRemovesNamedTokens(s: Settings, req: Request, lookup: ClientLookup, response: Response, st: Stores)
    ensures var after := RevokeSpec(s, req, lookup, response, st).1;
            && (Token(req).None? ==> after == st)
            && (Token(req).Some? ==> Bounded(st, after, Token(req).value, ResolvedClient(lookup), s.registry))
  {
    if IsRequestSecured(req.server) && Token(req).Some? {
      RevokeTokenSpecIsBounded(s, st, response, Token(req).value, Hint(req), ResolvedClient(lookup), Callback(req));
    }
  }

  predicate RegisteredConfidential(id: string, registry: map<string, Client>) {
    id in registry && registry[id].confidential
  }

  /** Anonymous revocation never removes a token owned by a registered
      confidential client: such clients must authenticate. */
  lemma AnonymousRevocationSparesConfidentialClients(s: Settings, req: Request, response: Response, st: Stores)
    ensures var after := RevokeSpec(s, req, OtherFailure, response, st).1;
            && (forall k :: k in st.access && RegisteredConfidential(st.access[k].clientPublicId, s.registry) ==>
                  k in after.access && after.access[k] == st.access[k])
            && (forall k :: k in st.refresh && RegisteredConfidential(st.refresh[k].clientPublicId, s.registry) ==>
                  k in after.refresh && after.refresh[k] == st.refresh[k])
  {
    RevocationOnlyRemovesNamedTokens(s, req, OtherFailure, response, st);
  }

  /** An authenticated client only ever revokes its own tokens. */
  lemma AuthenticatedClientRevokesOnlyOwnTokens(s: Settings, req: Request, c: Client, response: Response, st: Stores)
    ensures var after := RevokeSpec(s, req, Authenticated(c), response, st).1;
            && (forall k :: k in st.access && k !in after.access ==> st.access[k].clientPublicId == c.publicId)
            && (forall k :: k in st.refresh && k !in after.refresh ==> st.refresh[k].clientPublicId == c.publicId)
  {
    RevocationOnlyRemovesNamedTokens(s, req, Authenticated(c), response, st);
  }

  // -----------------------------------------------------------------------
  // Idempotence
  // -----------------------------------------------------------------------

  /** No access token named `token` is left that the client may revoke. */
  predicate AccessSettled(st: Stores, token: string, client: Option<Client>, registry: map<string, Client>) {
    !(token in st.access && IsClientVerified(st.access[token].clientPublicId, client, registry))
  }

  predicate RefreshSettled(st: Stores, token: string, client: Option<Client>, registry: map<string, Client>) {
    !(token in st.refresh && IsClientVerified(st.refresh[token].clientPublicId, client, registry))
  }

  /** Applying a kind settles it, keeps the other kind settled, and is a
      no-op on a state where that kind is already settled. */
  lemma ApplyKindSettles(st: Stores, kind: TokenKind, token: string, client: Option<Client>,
                         registry: map<string, Client>, cascade: bool)
    ensures var after := ApplyKind(st, kind, token, client, registry, cascade);
            && (kind.AccessTokenKind? ==> AccessSettled(after, token, client, registry))
            && (kind.RefreshTokenKind? ==> RefreshSettled(after, token, client, registry))
            && (AccessSettled(st, token, client, registry) ==> AccessSettled(after, token, client, registry))
            && (RefreshSettled(st, token, client, registry) ==> RefreshSettled(after, token, client, registry))
            && (kind.AccessTokenKind? && AccessSettled(st, token, client, registry) ==> after == st)
            && (kind.RefreshTokenKind? && RefreshSettled(st, token, client, registry) ==> after == st)
  {
  }

  /** Both kinds settled after trying every method, and trying them on a
      settled state changes nothing. */
  lemma RevokeKindsSettles(st: Stores, token: string, client: Option<Client>, registry: map<string, Client>, cascade: bool)
    ensures var methods := GetRevocationMethods(true);
            var after := RevokeKinds(st, methods, token, client, registry, cascade);
            && AccessSettled(after, token, client, registry) && RefreshSettled(after, token, client, registry)
            && (AccessSettled(st, token, client, registry) && RefreshSettled(st, token, client, registry) ==> after == st)
  {
    var methods := GetRevocationMethods(true);
    assert methods[..1][..0] == [] && methods[..1] == [methods[0]] && methods[..|methods| - 1] == methods[..1];
    var mid := ApplyKind(st, AccessTokenKind, token, client, registry, cascade);
    assert RevokeKinds(st, methods[..1], token, client, registry, cascade) == mid;
    ApplyKindSettles(st, AccessTokenKind, token, client, registry, cascade);
    ApplyKindSettles(mid, RefreshTokenKind, token, client, registry, cascade);
  }

  /** `revokeToken` twice is `revokeToken` once: the second call answers
      the same and leaves the stores as the first call left them. */
  lemma RevokeTokenIsIdempotent(s: Settings, st: Stores, response: Response, token: string, hint: Option<string>,
                                client: Option<Client>, callback: Option<string>)
    ensures var first := RevokeTokenSpec(s, st, response, token, hint, client, callback);
            RevokeTokenSpec(s, first.1, response, token, hint, client, callback) == first
  {
    var methods := GetRevocationMethods(true);
    var first := RevokeTokenSpec(s, st, response, token, hint, client, callback);
    if hint.None? {
      RevokeKindsSettles(st, token, client, s.registry, Cascades(s));
      RevokeKindsSettles(first.1, token, client, s.registry, Cascades(s));
    } else if MethodFor(methods, hint.value).Some? {
      var kind := MethodFor(methods, hint.value).value;
      ApplyKindSettles(st, kind, token, client, s.registry, Cascades(s));
      ApplyKindSettles(first.1, kind, token, client, s.registry, Cascades(s));
    }
  }

  /** Sending the same revocation request twice: the second run gives the
      same outcome and changes nothing further (RFC 7009, section 2.2: an
      invalid or already revoked token is answered with 200 as well). */
  lemma RevocationIsIdempotent(s: Settings, req: Request, lookup: ClientLookup, response: Response, st: Stores)
    ensures var first := RevokeSpec(s, req, lookup, response, st);
            RevokeSpec(s, req, lookup, response, first.1) == first
  {
    if IsRequestSecured(req.server) && Token(req).Some? {
      RevokeTokenIsIdempotent(s, st, response, Token(req).value, Hint(req), ResolvedClient(lookup), Callback(req));
    }
  }

  // -----------------------------------------------------------------------
  // What a run must remove, and the hints
  // -----------------------------------------------------------------------

  /** The preconditions of `revokeToken` being reached with a client that
      is authenticated or anonymous and a hint naming the access kind or no
      hint. */
  predicate ReachesAccessRevocation(req: Request, lookup: ClientLookup) {
    && IsRequestSecured(req.server) && Token(req).Some?
    && (lookup.Authenticated? || lookup.OtherFailure?)
    && (Hint(req).None? || Hint(req) == Some("access_token"))
  }

  /** An access token the client may revoke is revoked, and so is its
      paired refresh token when the cascade is on and the client may revoke
      that one too; the answer is 200 with an empty or `callback()` body. */
  lemma VerifiedAccessTokenIsRevoked(s: Settings, req: Request, lookup: ClientLookup, response: Response, st: Stores)
    requires ReachesAccessRevocation(req, lookup)
    requires Token(req).value in st.access
    requires IsClientVerified(st.access[Token(req).value].clientPublicId, ResolvedClient(lookup), s.registry)
    ensures var (outcome, after) := RevokeSpec(s, req, lookup, response, st);
            && outcome == Responded(GetResponseContent(response, "", Callback(req), 200))
            && Token(req).value !in after.access
            && (var paired := st.access[Token(req).value].refreshToken;
                Cascades(s) && paired.Some? && paired.value in st.refresh &&
                IsClientVerified(st.refresh[paired.value].clientPublicId, ResolvedClient(lookup), s.registry)
                ==> paired.value !in after.refresh)
  {
    var token, client := Token(req).value, ResolvedClient(lookup);
    var methods := GetRevocationMethods(true);
    var mid := ApplyKind(st, AccessTokenKind, token, client, s.registry, Cascades(s));
    if Hint(req).None? {
      assert methods[..1][..0] == [] && methods[..|methods| - 1] == methods[..1];
      assert RevokeKinds(st, methods[..1], token, client, s.registry, Cascades(s)) == mid;
      ApplyKindIsBounded(mid, RefreshTokenKind, token, client, s.registry, Cascades(s));
    } else {
      assert MethodFor(methods, "access_token") == Some(AccessTokenKind);
    }
  }

  /** With the cascade switched off, revoking by the access-token hint
      leaves every refresh token in place; without a hint only the named
      token itself can leave the refresh store. */
  lemma NoCascadeKeepsRefreshTokens(s: Settings, req: Request, lookup: ClientLookup, response: Response, st: Stores)
    requires !Cascades(s)
    ensures var after := RevokeSpec(s, req, lookup, response, st).1;
            && (Hint(req) == Some("access_token") ==> after.refresh == st.refresh)
            && (Token(req).Some? ==> RemovesOnly(st.refresh, after.refresh, {Token(req).value}))
  {
    if IsRequestSecured(req.server) && Token(req).Some? {
      var token, client := Token(req).value, ResolvedClient(lookup);
      var methods := GetRevocationMethods(true);
      assert MethodFor(methods, "access_token") == Some(AccessTokenKind);
      if Hint(req).None? {
        assert methods[..1][..0] == [] && methods[..|methods| - 1] == methods[..1];
        var mid := ApplyKind(st, AccessTokenKind, token, client, s.registry, false);
        assert RevokeKinds(st, methods[..1], token, client, s.registry, false) == mid;
        assert mid.refresh == st.refresh;
      }
    }
  }

  /** The refresh-token hint never touches the access-token store. */
  lemma RefreshHintKeepsAccessTokens(s: Settings, req: Request, lookup: ClientLookup, response: Response, st: Stores)
    requires Hint(req) == Some("refresh_token")
    ensures RevokeSpec(s, req, lookup, response, st).1.access == st.access
  {
    assert MethodFor(GetRevocationMethods(true), "refresh_token") == Some(RefreshTokenKind);
  }

  /** A refresh token the client may revoke is revoked when it is named,
      with no hint or with the refresh-token hint. */
  lemma VerifiedRefreshTokenIsRevoked(s: Settings, req: Request, lookup: ClientLookup, response: Response, st: Stores)
    requires IsRequestSecured(req.server) && Token(req).Some?
    requires lookup.Authenticated? || lookup.OtherFailure?
    requires Hint(req).None? || Hint(req) == Some("refresh_token")
    requires Token(req).value in st.refresh
    requires IsClientVerified(st.refresh[Token(req).value].clientPublicId, ResolvedClient(lookup), s.registry)
    ensures var (outcome, after) := RevokeSpec(s, req, lookup, response, st);
            && outcome == Responded(GetResponseContent(response, "", Callback(req), 200))
            && Token(req).value !in after.refresh
  {
    var token, client := Token(req).value, ResolvedClient(lookup);
    var methods := GetRevocationMethods(true);
    if Hint(req).None? {
      RevokeKindsSettles(st, token, client, s.registry, Cascades(s));
    } else {
      assert MethodFor(methods, "refresh_token") == Some(RefreshTokenKind);
    }
  }

  /** A hint that names neither token kind is answered with 501
      `unsupported_token_type` and changes nothing. */
  lemma UnsupportedHintIsRejected(s: Settings, req: Request, lookup: ClientLookup, response: Response, st: Stores)
    requires IsRequestSecured(req.server) && Token(req).Some?
    requires lookup.Authenticated? || lookup.OtherFailure?
    requires Hint(req).Some? && Hint(req).value != "access_token" && Hint(req).value != "refresh_token"
    ensures RevokeSpec(s, req, lookup, response, st) ==
            (Responded(GetResponseContent(response, s.errorBody(UnsupportedHint(Hint(req).value)), Callback(req), 501)), st)
  {
    assert MethodFor(GetRevocationMethods(true), Hint(req).value).None?;
  }

  // -----------------------------------------------------------------------
  // The order of the checks
  // -----------------------------------------------------------------------

  /** The checks in their order: transport security, then the token
      parameter, then the client lookup; each failure leaves the stores as
      they were. Only an internal server error escapes as an exception.
      Past the checks, no hint or a supported hint is answered with 200 and
      empty content whatever the stores hold (RFC 7009, section 2.2: an
      unknown, already revoked or foreign token is not an error). */
  lemma ChecksComeInOrder(s: Settings, req: Request, lookup: ClientLookup, response: Response, st: Stores)
    ensures var (outcome, after) := RevokeSpec(s, req, lookup, response, st);
            && (!IsRequestSecured(req.server) ==>
                  outcome == Responded(GetResponseContent(response, s.errorBody(NotSecured), Callback(req), 400)) && after == st)
            && (IsRequestSecured(req.server) && Token(req).None? ==>
                  outcome == Responded(GetResponseContent(response, s.errorBody(TokenMissing), Callback(req), 400)) && after == st)
            && (outcome.Raised? <==> IsRequestSecured(req.server) && Token(req).Some? && lookup.InternalFailure?)
            && (outcome.Raised? ==> outcome.error == lookup.error && after == st)
            && (IsRequestSecured(req.server) && Token(req).Some? && lookup.AuthenticateFailure? ==>
                  outcome == Responded(GetResponseContent(response, lookup.data, Callback(req), lookup.status)) && after == st)
            && (IsRequestSecured(req.server) && Token(req).Some? && (lookup.Authenticated? || lookup.OtherFailure?) ==>
                  outcome.Responded? && outcome.response.status in {200, 501})
            && (IsRequestSecured(req.server) && Token(req).Some? && (lookup.Authenticated? || lookup.OtherFailure?) &&
                (Hint(req).None? || Hint(req) == Some("access_token") || Hint(req) == Some("refresh_token")) ==>
                  outcome == Responded(GetResponseContent(response, "", Callback(req), 200)))
  {
    assert MethodFor(GetRevocationMethods(true), "access_token").Some?;
    assert MethodFor(GetRevocationMethods(true), "refresh_token").Some?;
  }

  /** The body the client gets back: the response's earlier body, followed
      by `callback(content)` exactly when a callback was given. */
  lemma BodyIsJsonpOnlyWithCallback(s: Settings, req: Request, lookup: ClientLookup, response: Response, st: Stores)
    ensures var outcome := RevokeSpec(s, req, lookup, response, st).0;
            && (outcome.Responded? && Callback(req).None? ==> outcome.response.body == response.body)
            && (outcome.Responded? && Callback(req).Some? ==>
                  exists content :: outcome.response.body == response.body + Callback(req).value + "(" + content + ")")
  {
    var outcome := RevokeSpec(s, req, lookup, response, st).0;
    if outcome.Responded? && Callback(req).Some? {
      var content :=
        if !IsRequestSecured(req.server) then s.errorBody(NotSecured)
        else if Token(req).None? then s.errorBody(TokenMissing)
        else if lookup.AuthenticateFailure? then lookup.data
        else if Hint(req).Some? && MethodFor(GetRevocationMethods(true), Hint(req).value).None?
        then s.errorBody(UnsupportedHint(Hint(req).value))
        else "";
      assert outcome.response.body == response.body + Callback(req).value + "(" + content + ")";
    }
  }

  /** The query string wins over the body for each parameter. */
  lemma QueryParametersTakePrecedence(req: Request, key: string)
    requires key in req.query && key in req.body
    ensures Parameter(req.query, req.body, key) == Some(req.query[key])
  {
  }
}
