/** The older JWT-bearer grant type: the same two phases, except that
    `prepare` takes the assertion's subject without checking that it is
    there, so an assertion without `sub` leaves the client public id null. */
module LegacyJwtBearerGrant {
  import opened Common
  import opened Clients
  import opened Jose
  import opened GrantTypeResponses
  import JwtBearerGrant

  /** `prepareGrantTypeResponse` of the older variant. */
  function Prepare(body: map<string, string>, load: string -> LoadOutcome, acc: Accumulator): Result<Accumulator, Error> {
    match Entry(body, "assertion")
    case None => Failure(JwtBearerGrant.AssertionMissing)
    case Some(assertion) =>
      match load(assertion)
      case LoadFailed(e) => Failure(e)
      case Loaded(jose) =>
        if !jose.Jws? then Failure(JwtBearerGrant.NotSigned)
        else Success(acc.(clientPublicId := Subject(jose),
                          additionalData := acc.additionalData["jwt" := jose]))
  }

  /** The two variants of `prepare` agree on every input except an
      assertion that loads to a JWS without a subject: the current variant
      refuses it, the older one accepts it and sets no client id. */
  lemma VariantsDifferOnlyWithoutSubject(body: map<string, string>, load: string -> LoadOutcome, acc: Accumulator)
    ensures var withoutSub := "assertion" in body && load(body["assertion"]).Loaded? &&
                              load(body["assertion"]).jose.Jws? && "sub" !in load(body["assertion"]).jose.claims;
            && (!withoutSub ==> Prepare(body, load, acc) == JwtBearerGrant.Prepare(body, load, acc))
            && (withoutSub ==>
                  && JwtBearerGrant.Prepare(body, load, acc) == Failure(JwtBearerGrant.SubjectMissing)
                  && Prepare(body, load, acc).Success?
                  && Prepare(body, load, acc).value.clientPublicId.None?)
  {
  }

  /** Every refusal of the older `prepare` is also a refusal of the
      current one: the current variant is strictly stricter. */
  lemma CurrentVariantIsStricter(body: map<string, string>, load: string -> LoadOutcome, acc: Accumulator)
    ensures Prepare(body, load, acc).Failure? ==> JwtBearerGrant.Prepare(body, load, acc) == Prepare(body, load, acc)
    ensures JwtBearerGrant.Prepare(body, load, acc).Success? ==> JwtBearerGrant.Prepare(body, load, acc) == Prepare(body, load, acc)
  {
    VariantsDifferOnlyWithoutSubject(body, load, acc);
  }

  class JwtBearerGrantType {
    const load: string -> LoadOutcome
    const verify: (Option<JoseObject>, Client) -> Option<Error>
    const config: Configuration

    constructor (load: string -> LoadOutcome, verify: (Option<JoseObject>, Client) -> Option<Error>, config: Configuration)
      ensures this.load == load && this.verify == verify && this.config == config
    {
      this.load := load;
      this.verify := verify;
      this.config := config;
    }

    function GetGrantType(): (r: string)
      ensures r == JwtBearerGrant.GrantTypeUrn
    {
      "urn:ietf:params:oauth:grant-type:jwt-bearer"
    }

    method PrepareGrantTypeResponse(body: map<string, string>, response: GrantTypeResponse) returns (failure: Option<Error>)
      modifies response
      ensures var r := Prepare(body, load, old(response.Snapshot()));
              && (failure.None? <==> r.Success?)
              && (r.Success? ==> response.Snapshot() == r.value)
              && (r.Failure? ==> failure == Some(r.error) && response.Snapshot() == old(response.Snapshot()))
    {
      var assertion := Entry(body, "assertion");
      if assertion.None? {
        return Some(JwtBearerGrant.AssertionMissing);
      }
      var loaded := load(assertion.value);
      if loaded.LoadFailed? {
        return Some(loaded.error);
      }
      var jwt := loaded.jose;
      if !jwt.Jws? {
        return Some(JwtBearerGrant.NotSigned);
      }
      response.clientPublicId := Subject(jwt);
      response.additionalData := response.additionalData["jwt" := jwt];
      failure := None;
    }

    /** `grantAccessToken`: the same code as the current variant. */
    method GrantAccessToken(body: map<string, string>, client: Client, response: GrantTypeResponse)
      returns (failure: Option<Error>)
      modifies response
      ensures var r := JwtBearerGrant.Grant(body, client, verify, config, old(response.Snapshot()));
              && (failure.None? <==> r.Success?)
              && (r.Success? ==> response.Snapshot() == r.value)
              && (r.Failure? ==> failure == Some(r.error) && response.Snapshot() == old(response.Snapshot()))
    {
      if !client.jwtClient {
        return Some(JwtBearerGrant.NotJwtClient);
      }
      var jwt := response.GetAdditionalData("jwt");
      var verified := verify(jwt, client);
      if verified.Some? {
        return verified;
      }
      var issueRefreshToken := config.GetFlag(JwtBearerGrant.RefreshFlagKey, false);
      var scope := Entry(body, "scope");
      response.requestedScope := scope;
      response.availableScope := None;
      response.resourceOwnerPublicId := Some(client.publicId);
      response.refreshTokenIssued := issueRefreshToken;
      response.refreshTokenScope := scope;
      response.refreshTokenRevoked := None;
      failure := None;
    }
  }
}
