/** The JOSE objects a loader can yield from a compact serialization:
    a signed token (JWS) with its claims, or an encrypted one (JWE). The
    loader, the decrypter and the signature verifier are parameters. */
module Jose {
  import opened Common

  datatype JoseObject = Jws(claims: map<string, string>) | Jwe

  /** What `load` did: returned an object, or threw. */
  datatype LoadOutcome = Loaded(jose: JoseObject) | LoadFailed(error: Error)

  /** `getSubject()`: the `sub` claim, or null. */
  function Subject(jose: JoseObject): (r: Option<string>)
    ensures r.Some? <==> jose.Jws? && "sub" in jose.claims
    ensures r.Some? ==> r.value == jose.claims["sub"]
  {
    if jose.Jws? && "sub" in jose.claims then Some(jose.claims["sub"]) else None
  }
}

/** The per-request accumulator a grant type fills in two phases: `prepare`
    (before the client is known) and `grant` (with the client). */
module GrantTypeResponses {
  import opened Common
  import opened Jose

  /** The accumulator's fields as a value. */
  datatype Accumulator = Accumulator(
    clientPublicId: Option<string>,
    resourceOwnerPublicId: Option<string>,
    requestedScope: Option<string>,
    availableScope: Option<string>,
    refreshTokenIssued: bool,
    refreshTokenScope: Option<string>,
    refreshTokenRevoked: Option<bool>,
    additionalData: map<string, JoseObject>)

  const EmptyAccumulator := Accumulator(None, None, None, None, false, None, None, map[])

  class GrantTypeResponse {
    var clientPublicId: Option<string>
    var resourceOwnerPublicId: Option<string>
    var requestedScope: Option<string>
    var availableScope: Option<string>
    var refreshTokenIssued: bool
    var refreshTokenScope: Option<string>
    var refreshTokenRevoked: Option<bool>
    var additionalData: map<string, JoseObject>

    constructor ()
      ensures Snapshot() == EmptyAccumulator
    {
      clientPublicId, resourceOwnerPublicId, requestedScope, availableScope := None, None, None, None;
      refreshTokenIssued, refreshTokenScope, refreshTokenRevoked := false, None, None;
      additionalData := map[];
    }

    ghost function Snapshot(): Accumulator
      reads this
    {
      Accumulator(clientPublicId, resourceOwnerPublicId, requestedScope, availableScope,
                  refreshTokenIssued, refreshTokenScope, refreshTokenRevoked, additionalData)
    }

    /** `getAdditionalData(key)`: the stored value, or null. */
    function GetAdditionalData(key: string): (r: Option<JoseObject>)
      reads this
      ensures r.Some? <==> key in additionalData
      ensures r.Some? ==> r.value == additionalData[key]
    {
      if key in additionalData then Some(additionalData[key]) else None
    }
  }
}
