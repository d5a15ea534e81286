/** The JWT-bearer grant type of RFC 7523, section 2.1: the client presents
    a signed assertion in the `assertion` body parameter; its `sub` claim
    names the client, and once that client is known to accept JWT
    authentication the assertion's signature is checked against it. */
module JwtBearerGrant {
  import opened Common
  import opened Clients
  import opened Jose
  import opened GrantTypeResponses

  const GrantTypeUrn := "urn:ietf:params:oauth:grant-type:jwt-bearer"
  const RefreshFlagKey := "issue_refresh_token_with_client_credentials_grant_type"

  const AssertionMissing := Error(BadRequest, InvalidRequest, "Parameter \"assertion\" is missing.")
  const NotSigned := Error(BadRequest, InvalidRequest, "Assertion does not contain signed claims.")
  const SubjectMissing := Error(BadRequest, InvalidRequest, "Assertion does not contain \"sub\" claims.")
  const NotJwtClient := Error(BadRequest, InvalidClient, "The client is not a JWT client")

  /** `prepareGrantTypeResponse` on the accumulator's value: the assertion
      must be present, load to a JWS and carry a subject; then the subject
      becomes the client public id and the JWS is kept under `jwt`. */
  function Prepare(body: map<string, string>, load: string -> LoadOutcome, acc: Accumulator): Result<Accumulator, Error> {
    match Entry(body, "assertion")
    case None => Failure(AssertionMissing)
    case Some(assertion) =>
      match load(assertion)
      case LoadFailed(e) => Failure(e)
      case Loaded(jose) =>
        if !jose.Jws? then Failure(NotSigned)
        else if "sub" !in jose.claims then Failure(SubjectMissing)
        else Success(acc.(clientPublicId := Some(jose.claims["sub"]),
                          additionalData := acc.additionalData["jwt" := jose]))
  }

  /** `grantAccessToken` on the accumulator's value: only a JWT client may
      use the grant; the signature of the stored assertion is verified
      against it (the verifier answers null or the error it throws); then
      scope, owner and refresh policy are set. */
  function Grant(body: map<string, string>, client: Client, verify: (Option<JoseObject>, Client) -> Option<Error>,
                 config: Configuration, acc: Accumulator): Result<Accumulator, Error>
  {
    if !client.jwtClient then Failure(NotJwtClient)
    else
      var jwt := if "jwt" in acc.additionalData then Some(acc.additionalData["jwt"]) else None;
      match verify(jwt, client)
      case Some(e) => Failure(e)
      case None =>
        var scope := Entry(body, "scope");
        Success(acc.(requestedScope := scope,
                     availableScope := None,
                     resourceOwnerPublicId := Some(client.publicId),
                     refreshTokenIssued := config.GetFlag(RefreshFlagKey, false),
                     refreshTokenScope := scope,
                     refreshTokenRevoked := None))
  }

  /** `prepare` succeeds exactly for a present assertion that loads to a
      JWS with a `sub` claim, and then changes the client public id and
      the `jwt` entry only; every refusal of its own is a 400
      `invalid_request`. */
  lemma PrepareOutcome(body: map<string, string>, load: string -> LoadOutcome, acc: Accumulator)
    ensures var r := Prepare(body, load, acc);
            && (r.Success? <==>
                  "assertion" in body && load(body["assertion"]).Loaded? &&
                  Subject(load(body["assertion"]).jose).Some?)
            && (r.Success? ==>
                  && r.value.clientPublicId == Subject(load(body["assertion"]).jose)
                  && r.value.additionalData == acc.additionalData["jwt" := load(body["assertion"]).jose]
                  && r.value.(clientPublicId := acc.clientPublicId, additionalData := acc.additionalData) == acc)
            && ("assertion" !in body ==> r == Failure(AssertionMissing))
            && (r.Failure? && !("assertion" in body && load(body["assertion"]).LoadFailed?) ==>
                  r.error.status == BadRequest && r.error.code == InvalidRequest)
  {
  }

  /** `grant` succeeds exactly for a JWT client whose signature check
      passes; it then sets both scopes to the body's `scope`, clears the
      available scope and the revoked refresh token, makes the client its
      own resource owner, takes the refresh policy from the configuration
      (default: no refresh token), and leaves what `prepare` set alone. */
  lemma GrantOutcome(body: map<string, string>, client: Client, verify: (Option<JoseObject>, Client) -> Option<Error>,
                     config: Configuration, acc: Accumulator)
    ensures var r := Grant(body, client, verify, config, acc);
            var jwt := if "jwt" in acc.additionalData then Some(acc.additionalData["jwt"]) else None;
            && (r.Success? <==> client.jwtClient && verify(jwt, client).None?)
            && (!client.jwtClient ==> r == Failure(NotJwtClient))
            && (r.Success? ==>
                  && r.value.requestedScope == r.value.refreshTokenScope == Entry(body, "scope")
                  && r.value.availableScope.None? && r.value.refreshTokenRevoked.None?
                  && r.value.resourceOwnerPublicId == Some(client.publicId)
                  && r.value.refreshTokenIssued == config.GetFlag(RefreshFlagKey, false)
                  && (RefreshFlagKey !in config.flags ==> !r.value.refreshTokenIssued)
                  && r.value.clientPublicId == acc.clientPublicId
                  && r.value.additionalData == acc.additionalData)
  {
  }

  /** The two phases together, on a fresh accumulator: the assertion's
      subject is the client id, the authenticated client is the resource
      owner, and the signature checked is the assertion's own. */
  lemma TwoPhases(body: map<string, string>, load: string -> LoadOutcome, client: Client,
                  verify: (Option<JoseObject>, Client) -> Option<Error>, config: Configuration, acc: Accumulator)
    requires Prepare(body, load, acc).Success?
    ensures var prepared := Prepare(body, load, acc).value;
            var jose := load(body["assertion"]).jose;
            var r := Grant(body, client, verify, config, prepared);
            && (r.Success? <==> client.jwtClient && verify(Some(jose), client).None?)
            && (r.Success? ==> r.value.clientPublicId == Some(jose.claims["sub"]) &&
                               r.value.resourceOwnerPublicId == Some(client.publicId) &&
                               r.value.additionalData["jwt"] == jose)
  {
    PrepareOutcome(body, load, acc);
  }

  class JwtBearerGrantType {
    const load: string -> LoadOutcome
    const verify: (Option<JoseObject>, Client) -> Option<Error>
    const config: Configuration

    constructor (load: string -> LoadOutcome, verify: (Option<JoseObject>, Client) -> Option<Error>, config: Configuration)
      ensures this.load == load && this.verify == verify && this.config == config
    {
      this.load := load;
      this.verify := verify;
      this.config := config;
    }

    function GetGrantType(): (r: string)
      ensures r == GrantTypeUrn
    {
      GrantTypeUrn
    }

    /** `prepareGrantTypeResponse`: on failure the accumulator is left as
        it was. */
    method PrepareGrantTypeResponse(body: map<string, string>, response: GrantTypeResponse) returns (failure: Option<Error>)
      modifies response
      ensures var r := Prepare(body, load, old(response.Snapshot()));
              && (failure.None? <==> r.Success?)
              && (r.Success? ==> response.Snapshot() == r.value)
              && (r.Failure? ==> failure == Some(r.error) && response.Snapshot() == old(response.Snapshot()))
    {
      var assertion := Entry(body, "assertion");
      if assertion.None? {
        return Some(AssertionMissing);
      }
      var loaded := load(assertion.value);
      if loaded.LoadFailed? {
        return Some(loaded.error);
      }
      var jwt := loaded.jose;
      if !jwt.Jws? {
        return Some(NotSigned);
      }
      if "sub" !in jwt.claims {
        return Some(SubjectMissing);
      }
      response.clientPublicId := Some(jwt.claims["sub"]);
      response.additionalData := response.additionalData["jwt" := jwt];
      failure := None;
    }

    /** `grantAccessToken`: the client check comes before any change. */
    method GrantAccessToken(body: map<string, string>, client: Client, response: GrantTypeResponse)
      returns (failure: Option<Error>)
      modifies response
      ensures var r := Grant(body, client, verify, config, old(response.Snapshot()));
              && (failure.None? <==> r.Success?)
              && (r.Success? ==> response.Snapshot() == r.value)
              && (r.Failure? ==> failure == Some(r.error) && response.Snapshot() == old(response.Snapshot()))
    {
      if !client.jwtClient {
        return Some(NotJwtClient);
      }
      var jwt := response.GetAdditionalData("jwt");
      var verified := verify(jwt, client);
      if verified.Some? {
        return verified;
      }
      var issueRefreshToken := config.GetFlag(RefreshFlagKey, false);
      var scope := Entry(body, "scope");
      response.requestedScope := scope;
      response.availableScope := None;
      response.resourceOwnerPublicId := Some(client.publicId);
      response.refreshTokenIssued := issueRefreshToken;
      response.refreshTokenScope := scope;
      response.refreshTokenRevoked := None;
      failure := None;
    }
  }
}
