/** The refresh-token manager: token creation (random length in a configured
    range, random string over a configured charset, rejection of a
    wrong-length result, expiry = now + lifetime, where the lifetime is the
    client's override or the configured default), and a dictionary store
    that the endpoints look refresh tokens up in and revoke them from. The
    source leaves the store abstract; this one is the model's own. */
module RefreshTokenManagement {
  import opened Common
  import opened Clients
  import opened Tokens
  import UnregisteredClientStub

  const MinLengthKey := "refresh_token_min_length"
  const MaxLengthKey := "refresh_token_max_length"
  const CharsetKey := "refresh_token_charset"
  const LifetimeKey := "refresh_token_lifetime"
  const DefaultLifetime := 1209600   // 14 days
  const WrongLengthMessage := "An error has occurred during the creation of the refresh token."

  /** `getLifetime`: the client's `getTokenLifetime('refresh_token')` when
      it implements the extension and answers non-null, otherwise the
      configured `refresh_token_lifetime` (default 1209600). */
  function RefreshLifetime(client: Client, config: Configuration): (r: int)
    ensures LifetimeOverride(client, "refresh_token").Some? ==> r == LifetimeOverride(client, "refresh_token").value
    ensures LifetimeOverride(client, "refresh_token").None? ==> r == config.GetInt(LifetimeKey, DefaultLifetime)
    ensures client.lifetime.NoLifetimeExtension? && config == DefaultConfiguration ==> r == 1209600
  {
    match LifetimeOverride(client, "refresh_token")
    case Some(lifetime) => lifetime
    case None => config.GetInt(LifetimeKey, DefaultLifetime)
  }

  /** The unregistered test client overrides the configured lifetime with
      2000 s, whatever the configuration says. */
  lemma UnregisteredClientRefreshLifetime(publicId: string, config: Configuration)
    ensures RefreshLifetime(UnregisteredClientStub.NewUnregisteredClient(publicId), config) == 2000
  {
    UnregisteredClientStub.TableAgreesWithSwitch(publicId, "refresh_token");
  }

  /** `getRefreshTokenLength`: a draw from [min(a, b), max(a, b)] for the
      configured bounds (defaults 20 and 30). */
  function RefreshTokenLength(config: Configuration, draw: nat): (n: int)
    ensures var a, b := config.GetInt(MinLengthKey, 20), config.GetInt(MaxLengthKey, 30);
            Min(a, b) <= n <= Max(a, b)
    ensures config == DefaultConfiguration ==> 20 <= n <= 30
  {
    ChooseLength(config.GetInt(MinLengthKey, 20), config.GetInt(MaxLengthKey, 30), draw)
  }

  function RefreshTokenCharset(config: Configuration): (charset: string)
    ensures CharsetKey !in config.strings ==> charset == DefaultCharset
  {
    config.GetString(CharsetKey, DefaultCharset)
  }

  /** The token the store builds from `addRefreshToken`'s arguments (an
      abstract hook in the manager, filled here by the dictionary store):
      not yet used. */
  function StoredRefreshToken(token: string, expiresAt: int, client: Client, owner: ResourceOwner,
                              scope: seq<string>): (t: RefreshToken)
    ensures t.token == token && t.expiresAt == expiresAt && t.scope == scope && !t.used
    ensures t.clientPublicId == client.publicId && t.resourceOwnerPublicId == Some(owner.publicId)
  {
    RefreshToken(token, client.publicId, Some(owner.publicId), scope, expiresAt, false)
  }

  /** What `createRefreshToken` produces, as a function of its inputs. */
  function NewRefreshToken(client: Client, owner: ResourceOwner, scope: seq<string>, env: Environment)
    : (r: Result<RefreshToken, Error>)
    ensures var n := RefreshTokenLength(env.config, env.draw);
            var g := env.generator(n, RefreshTokenCharset(env.config));
            && (r.Success? <==> g.Generated? && |g.s| == n)
            && (r.Success? ==> r.value == StoredRefreshToken(g.s, env.now + RefreshLifetime(client, env.config), client, owner, scope))
            && (r.Success? ==> |r.value.token| == n)
    ensures r.Failure? ==> r.error.status == InternalServerError && r.error.code == ServerErrorCode
  {
    var length := RefreshTokenLength(env.config, env.draw);
    match CheckGenerated(env.generator(length, RefreshTokenCharset(env.config)), length, WrongLengthMessage)
    case Failure(e) => Failure(e)
    case Success(token) =>
      Success(StoredRefreshToken(token, env.now + RefreshLifetime(client, env.config), client, owner, scope))
  }

  /** The store invariant: every token is stored under its own string. */
  ghost predicate KeyedByToken(m: map<string, RefreshToken>) {
    forall k :: k in m ==> m[k].token == k
  }

  class RefreshTokenManager {
    var refreshTokens: map<string, RefreshToken>

    ghost predicate Valid()
      reads this
    {
      KeyedByToken(refreshTokens)
    }

    /** A new manager holds no refresh token. The store is the model's own
        implementation of the abstract hooks; the exception manager and the
        configuration the source's constructor keeps are passed to each
        call instead. */
    constructor ()
      ensures Valid() && refreshTokens == map[]
    {
      refreshTokens := map[];
    }

    /** `getRefreshToken`: the entry stored under the string, or null. */
    function GetRefreshToken(token: string): (r: Option<RefreshToken>)
      reads this
      ensures r.Some? <==> token in refreshTokens
      ensures r.Some? ==> r.value == refreshTokens[token]
      ensures Valid() && r.Some? ==> r.value.token == token
    {
      if token in refreshTokens then Some(refreshTokens[token]) else None
    }

    /** `addRefreshToken`: stores the new token under its own string. */
    method AddRefreshToken(token: string, expiresAt: int, client: Client, owner: ResourceOwner, scope: seq<string>)
      returns (t: RefreshToken)
      requires Valid()
      modifies this
      ensures Valid()
      ensures t == StoredRefreshToken(token, expiresAt, client, owner, scope)
      ensures refreshTokens == old(refreshTokens)[token := t]
    {
      t := StoredRefreshToken(token, expiresAt, client, owner, scope);
      refreshTokens := refreshTokens[t.token := t];
    }

    /** `revokeRefreshToken`: removes the entry keyed by the token's string;
        an absent token leaves the store as it is. */
    method RevokeRefreshToken(t: RefreshToken)
      requires Valid()
      modifies this
      ensures Valid()
      ensures refreshTokens == old(refreshTokens) - {t.token}
    {
      if t.token in refreshTokens {
        refreshTokens := refreshTokens - {t.token};
      }
    }

    /** `markRefreshTokenAsUsed`: the stored token is flagged as used, and
        nothing else changes. */
    method MarkRefreshTokenAsUsed(t: RefreshToken)
      requires Valid()
      modifies this
      ensures Valid()
      ensures t.token in old(refreshTokens) ==>
                refreshTokens == old(refreshTokens)[t.token := old(refreshTokens)[t.token].(used := true)]
      ensures t.token !in old(refreshTokens) ==> refreshTokens == old(refreshTokens)
    {
      if t.token in refreshTokens {
        refreshTokens := refreshTokens[t.token := refreshTokens[t.token].(used := true)];
      }
    }

    /** `createRefreshToken`: draw a length, generate, check, then store
        exactly once. */
    method CreateRefreshToken(client: Client, owner: ResourceOwner, scope: seq<string>, env: Environment)
      returns (r: Result<RefreshToken, Error>)
      requires Valid()
      modifies this
      ensures Valid()
      ensures r == NewRefreshToken(client, owner, scope, env)
      ensures r.Success? ==> refreshTokens == old(refreshTokens)[r.value.token := r.value]
      ensures r.Failure? ==> refreshTokens == old(refreshTokens)
    {
      var length := RefreshTokenLength(env.config, env.draw);
      var charset := RefreshTokenCharset(env.config);
      var generated := env.generator(length, charset);
      var checked := CheckGenerated(generated, length, WrongLengthMessage);
      if checked.Failure? {
        return Failure(checked.error);
      }
      var t := AddRefreshToken(checked.value, env.now + RefreshLifetime(client, env.config), client, owner, scope);
      r := Success(t);
    }
  }
}
