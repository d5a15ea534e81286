/** The test suite's end user: a resource owner with a username and a
    password whose public id is its username, and whose refresh-token policy
    depends only on the kind of client. */
module EndUserStub {
  import opened Clients

  datatype EndUser = EndUser(publicId: string, username: string, password: string)

  /** The constructor: the public id is set to the username. */
  function NewEndUser(username: string, password: string): (u: EndUser)
    ensures u.publicId == username
    ensures u.username == username && u.password == password
  {
    EndUser(username, username, password)
  }

  function GetUsername(u: EndUser): string {
    u.username
  }

  function GetPassword(u: EndUser): string {
    u.password
  }

  /** The end user as the resource owner of a token. */
  function AsResourceOwner(u: EndUser): (o: ResourceOwner)
    ensures o.publicId == u.publicId
  {
    ResourceOwner(u.publicId)
  }

  /** Refresh tokens may be issued to confidential clients only, whatever the
      grant type. */
  predicate IsRefreshTokenIssuanceAllowed(u: EndUser, client: Client, grantType: string) {
    client.confidential
  }

  /** The getters give back what the constructor was given. */
  lemma GettersReturnConstructorArguments(username: string, password: string)
    ensures GetUsername(NewEndUser(username, password)) == username
    ensures GetPassword(NewEndUser(username, password)) == password
    ensures AsResourceOwner(NewEndUser(username, password)).publicId == username
  {
  }

  /** Refresh issuance is decided by the client alone. */
  lemma RefreshIssuanceIgnoresGrantType(u: EndUser, v: EndUser, client: Client, g1: string, g2: string)
    ensures IsRefreshTokenIssuanceAllowed(u, client, g1) == IsRefreshTokenIssuanceAllowed(v, client, g2)
    ensures IsRefreshTokenIssuanceAllowed(u, client, g1) <==> client.confidential
  {
  }
}
