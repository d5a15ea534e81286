/** The test suite's unregistered client: a client with a fixed token-lifetime
    table (10 s for authorization codes, 1000 s for access tokens, 2000 s for
    refresh tokens and for every other kind). */
module UnregisteredClientStub {
  import opened Common
  import opened Clients

  /** `getTokenLifetime`: one switch whose default shares the refresh-token
      branch, so no kind is ever answered with null. */
  function GetTokenLifetime(kind: string): (r: int)
    ensures kind == "authcode" ==> r == 10
    ensures kind == "access_token" ==> r == 1000
    ensures kind != "authcode" && kind != "access_token" ==> r == 2000
  {
    match kind
    case "authcode" => 10
    case "access_token" => 1000
    case _ => 2000
  }

  /** The same table as data, in the form every client offers it. */
  const Lifetimes: LifetimeExtension :=
    LifetimeTable(map["authcode" := 10, "access_token" := 1000, "refresh_token" := 2000], Some(2000))

  /** An unregistered client with the given public id. The base class it
      extends is not part of this model: it is taken to be neither
      confidential nor a JWT client and to allow no grant type. */
  function NewUnregisteredClient(publicId: string): (c: Client)
    ensures c.publicId == publicId && !c.confidential
    ensures c.lifetime == Lifetimes
  {
    Client(publicId, false, false, [], None, [], Lifetimes)
  }

  /** The table answers exactly what the switch answers, and never null. */
  lemma TableAgreesWithSwitch(publicId: string, kind: string)
    ensures LifetimeOverride(NewUnregisteredClient(publicId), kind) == Some(GetTokenLifetime(kind))
  {
    var c := NewUnregisteredClient(publicId);
    if kind == "authcode" || kind == "access_token" || kind == "refresh_token" {
      assert kind in Lifetimes.lifetimes;
    } else {
      assert kind !in Lifetimes.lifetimes;
    }
  }
}
