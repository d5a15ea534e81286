/** Clients and resource owners as the token managers and endpoints see them.
    A client is read-only to the core: created by an external registry. */
module Clients {
  import opened Common

  /** Whether a client implements the token-lifetime extension, and if so
      what its `getTokenLifetime(kind)` answers: the value listed for the
      kind, otherwise the fallback (which may be null). */
  datatype LifetimeExtension =
    | NoLifetimeExtension
    | LifetimeTable(lifetimes: map<string, int>, otherwise: Option<int>)

  datatype Client = Client(
    publicId: string,
    confidential: bool,              // implements ConfidentialClientInterface
    jwtClient: bool,                 // implements JWTClientInterface
    allowedGrantTypes: seq<string>,
    plaintextSecret: Option<string>,
    redirectUris: seq<string>,
    lifetime: LifetimeExtension)

  /** The client's per-kind lifetime override: None when the client does not
      implement the extension or when its answer is null. */
  function LifetimeOverride(client: Client, kind: string): (r: Option<int>)
    ensures client.lifetime.NoLifetimeExtension? ==> r.None?
    ensures client.lifetime.LifetimeTable? && kind in client.lifetime.lifetimes ==>
              r == Some(client.lifetime.lifetimes[kind])
    ensures client.lifetime.LifetimeTable? && kind !in client.lifetime.lifetimes ==>
              r == client.lifetime.otherwise
  {
    match client.lifetime
    case NoLifetimeExtension => None
    case LifetimeTable(table, otherwise) =>
      if kind in table then Some(table[kind]) else otherwise
  }

  /** A resource owner, seen through its public id. */
  datatype ResourceOwner = ResourceOwner(publicId: string)
}
