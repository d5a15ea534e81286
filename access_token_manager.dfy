/** The simple-string access-token manager: token creation (random length in
    a configured range, random string over a configured charset, rejection
    of a wrong-length result, expiry = now + lifetime) together with the
    in-memory dictionary store of the test suite, which subclasses it. */
module AccessTokenManagement {
  import opened Common
  import opened Clients
  import opened Tokens

  const MinLengthKey := "simple_string_access_token_min_length"
  const MaxLengthKey := "simple_string_access_token_max_length"
  const CharsetKey := "simple_string_access_token_charset"
  const WrongLengthMessage := "An error has occurred during the creation of the token."

  /** `getAccessTokenLength`: a draw from [min(a, b), max(a, b)] for the
      configured bounds (defaults 20 and 30). */
  function AccessTokenLength(config: Configuration, draw: nat): (n: int)
    ensures var a, b := config.GetInt(MinLengthKey, 20), config.GetInt(MaxLengthKey, 30);
            Min(a, b) <= n <= Max(a, b)
    ensures config == DefaultConfiguration ==> 20 <= n <= 30
  {
    ChooseLength(config.GetInt(MinLengthKey, 20), config.GetInt(MaxLengthKey, 30), draw)
  }

  function AccessTokenCharset(config: Configuration): (charset: string)
    ensures CharsetKey !in config.strings ==> charset == DefaultCharset
  {
    config.GetString(CharsetKey, DefaultCharset)
  }

  /** The token the store builds from `addAccessToken`'s arguments: the
      refresh-token field holds the paired token's string, or null. */
  function StoredAccessToken(token: string, expiresAt: int, client: Client, owner: ResourceOwner,
                             scope: seq<string>, refresh: Option<RefreshToken>): (t: AccessToken)
    ensures t.token == token && t.expiresAt == expiresAt && t.scope == scope
    ensures t.clientPublicId == client.publicId && t.resourceOwnerPublicId == Some(owner.publicId)
    ensures t.refreshToken == (if refresh.Some? then Some(refresh.value.token) else None)
  {
    AccessToken(token, client.publicId, Some(owner.publicId), scope, expiresAt,
                if refresh.Some? then Some(refresh.value.token) else None)
  }

  /** What `createAccessToken` produces, as a function of its inputs: on
      success a token of exactly the drawn length, built from the generated
      string and expiring at now + lifetime; otherwise a `server_error`. */
  function NewAccessToken(client: Client, owner: ResourceOwner, scope: seq<string>,
                          refresh: Option<RefreshToken>, env: Environment, lifetime: int): (r: Result<AccessToken, Error>)
    ensures var n := AccessTokenLength(env.config, env.draw);
            var g := env.generator(n, AccessTokenCharset(env.config));
            && (r.Success? <==> g.Generated? && |g.s| == n)
            && (r.Success? ==> r.value == StoredAccessToken(g.s, env.now + lifetime, client, owner, scope, refresh))
            && (r.Success? ==> |r.value.token| == n)
    ensures r.Failure? ==> r.error.status == InternalServerError && r.error.code == ServerErrorCode
  {
    var length := AccessTokenLength(env.config, env.draw);
    match CheckGenerated(env.generator(length, AccessTokenCharset(env.config)), length, WrongLengthMessage)
    case Failure(e) => Failure(e)
    case Success(token) => Success(StoredAccessToken(token, env.now + lifetime, client, owner, scope, refresh))
  }

  /** The store invariant: every token is stored under its own string. */
  ghost predicate KeyedByToken(m: map<string, AccessToken>) {
    forall k :: k in m ==> m[k].token == k
  }

  /** The two tokens the test store is seeded with, valid for an hour. */
  function SeededAccessTokens(now: int): (m: map<string, AccessToken>)
    ensures m.Keys == {"ABCD", "EFGH"} && KeyedByToken(m)
    ensures m["ABCD"].clientPublicId == "bar" && m["ABCD"].refreshToken == None
    ensures m["EFGH"].clientPublicId == "foo" && m["EFGH"].refreshToken == Some("REFRESH_EFGH")
    ensures forall k :: k in m ==> m[k].expiresAt == now + 3600 && m[k].scope == [] && m[k].resourceOwnerPublicId == None
  {
    map["ABCD" := AccessToken("ABCD", "bar", None, [], now + 3600, None),
        "EFGH" := AccessToken("EFGH", "foo", None, [], now + 3600, Some("REFRESH_EFGH"))]
  }

  class AccessTokenManager {
    var accessTokens: map<string, AccessToken>

    ghost predicate Valid()
      reads this
    {
      KeyedByToken(accessTokens)
    }

    /** The test store's constructor; `now` stands for `time()`. */
    constructor (now: int)
      ensures Valid()
      ensures accessTokens == SeededAccessTokens(now)
    {
      accessTokens := SeededAccessTokens(now);
    }

    /** `getAccessToken`: the entry stored under the string, or null. */
    function GetAccessToken(token: string): (r: Option<AccessToken>)
      reads this
      ensures r.Some? <==> token in accessTokens
      ensures r.Some? ==> r.value == accessTokens[token]
      ensures Valid() && r.Some? ==> r.value.token == token
    {
      if token in accessTokens then Some(accessTokens[token]) else None
    }

    /** `addAccessToken`: stores the new token under its own string,
        replacing any entry with that key; no other key changes. */
    method AddAccessToken(token: string, expiresAt: int, client: Client, owner: ResourceOwner,
                          scope: seq<string>, refresh: Option<RefreshToken>) returns (t: AccessToken)
      requires Valid()
      modifies this
      ensures Valid()
      ensures t == StoredAccessToken(token, expiresAt, client, owner, scope, refresh)
      ensures accessTokens == old(accessTokens)[token := t]
      ensures GetAccessToken(token) == Some(t)
      ensures forall k :: k != token ==> GetAccessToken(k) == old(GetAccessToken(k))
    {
      t := StoredAccessToken(token, expiresAt, client, owner, scope, refresh);
      accessTokens := accessTokens[t.token := t];
    }

    /** `revokeAccessToken`: removes the entry keyed by the token's string;
        an absent token leaves the store as it is. */
    method RevokeAccessToken(t: AccessToken)
      requires Valid()
      modifies this
      ensures Valid()
      ensures accessTokens == old(accessTokens) - {t.token}
      ensures GetAccessToken(t.token) == None
      ensures forall k :: k != t.token ==> GetAccessToken(k) == old(GetAccessToken(k))
      ensures t.token !in old(accessTokens) ==> accessTokens == old(accessTokens)
    {
      if t.token in accessTokens {
        accessTokens := accessTokens - {t.token};
      }
    }

    /** `createAccessToken`: draw a length, generate, check, then store. */
    method CreateAccessToken(client: Client, owner: ResourceOwner, scope: seq<string>,
                             refresh: Option<RefreshToken>, env: Environment, lifetime: int)
      returns (r: Result<AccessToken, Error>)
      requires Valid()
      modifies this
      ensures Valid()
      ensures r == NewAccessToken(client, owner, scope, refresh, env, lifetime)
      ensures r.Success? ==> accessTokens == old(accessTokens)[r.value.token := r.value]
      ensures r.Failure? ==> accessTokens == old(accessTokens)
    {
      var length := AccessTokenLength(env.config, env.draw);
      var charset := AccessTokenCharset(env.config);
      var generated := env.generator(length, charset);
      var checked := CheckGenerated(generated, length, WrongLengthMessage);
      if checked.Failure? {
        return Failure(checked.error);
      }
      var t := AddAccessToken(checked.value, env.now + lifetime, client, owner, scope, refresh);
      r := Success(t);
    }
  }
}
