/** The `none` response type of OAuth 2.0 Multiple Response Type Encoding
    Practices, section 4: the authorization creates an access token in the
    store but hands nothing of it to the client; the redirect carries only
    the state, through the query response mode. */
module NoneResponse {
  import opened Common
  import opened Clients
  import opened Tokens
  import opened EndUserStub
  import AccessTokenManagement

  /** What the authorization endpoint hands over: the client, the end user
      who authorized it, the scope and the optional state. */
  datatype Authorization = Authorization(client: Client, endUser: EndUser, scope: seq<string>, state: Option<string>)

  /** The redirect parameters: the state alone, when it is not empty in
      PHP's sense. */
  function StateParams(state: Option<string>): (params: map<string, string>)
    ensures "state" in params <==> !PhpEmpty(state)
    ensures "state" in params ==> params["state"] == state.value
    ensures params.Keys <= {"state"}
  {
    if !PhpEmpty(state) then map["state" := state.value] else map[]
  }

  /** What `grantAuthorization` answers, as a function of the token the
      manager creates: its parameters, or the creation error. */
  function Granted(authorization: Authorization, created: Result<AccessToken, Error>): (r: Result<map<string, string>, Error>)
    ensures r.Failure? <==> created.Failure?
    ensures r.Failure? ==> r.error == created.error
    ensures r.Success? ==> r.value == StateParams(authorization.state)
  {
    match created
    case Failure(e) => Failure(e)
    case Success(_) => Success(StateParams(authorization.state))
  }

  /** Whatever token was created, and whatever its string, the parameters
      are the same: only the state can reach the client. */
  lemma ParamsIndependentOfToken(authorization: Authorization, t1: AccessToken, t2: AccessToken)
    ensures Granted(authorization, Success(t1)) == Granted(authorization, Success(t2))
    ensures "access_token" !in Granted(authorization, Success(t1)).value
  {
  }

  /** A state of "" or "0" is dropped like a missing one; any other state
      comes back unchanged. */
  lemma StateRoundTrip(authorization: Authorization, t: AccessToken)
    ensures var params := Granted(authorization, Success(t)).value;
            && (authorization.state.Some? && authorization.state.value !in {"", "0"} ==>
                  params == map["state" := authorization.state.value])
            && (authorization.state.None? || authorization.state.value in {"", "0"} ==> params == map[])
  {
  }

  class NoneResponseType {
    const accessTokens: AccessTokenManagement.AccessTokenManager

    constructor (accessTokens: AccessTokenManagement.AccessTokenManager)
      ensures this.accessTokens == accessTokens
    {
      this.accessTokens := accessTokens;
    }

    function GetResponseType(): (r: string)
      ensures r == "none"
    {
      "none"
    }

    function GetResponseMode(): (r: string)
      ensures r == "query"
    {
      "query"
    }

    /** `grantAuthorization`: exactly one access token is created for the
        authorization's client, end user and scope, with no refresh token;
        the answer is the state parameters, or the creation error. */
    method GrantAuthorization(authorization: Authorization, env: Environment, lifetime: int)
      returns (r: Result<map<string, string>, Error>)
      requires accessTokens.Valid()
      modifies accessTokens
      ensures accessTokens.Valid()
      ensures var created := AccessTokenManagement.NewAccessToken(authorization.client, AsResourceOwner(authorization.endUser),
                                                                  authorization.scope, None, env, lifetime);
              && r == Granted(authorization, created)
              && (created.Success? ==> accessTokens.accessTokens == old(accessTokens.accessTokens)[created.value.token := created.value])
              && (created.Failure? ==> accessTokens.accessTokens == old(accessTokens.accessTokens))
    {
      var token := accessTokens.CreateAccessToken(authorization.client, AsResourceOwner(authorization.endUser),
                                                  authorization.scope, None, env, lifetime);
      if token.Failure? {
        return Failure(token.error);
      }
      var params := map[];
      var state := authorization.state;
      if !PhpEmpty(state) {
        params := params["state" := state.value];
      }
      r := Success(params);
    }
  }
}
