/** The test suite's registry of password clients: a dictionary from public
    id to client, filled by `createClients` with three fixtures. */
module PasswordClientManagerStub {
  import opened Common
  import opened Clients

  const AllGrantTypes: seq<string> :=
    ["client_credentials", "password", "token", "id_token", "none", "refresh_token", "code", "authorization_code"]

  /** A password client: confidential and authenticated by its secret. The
      PasswordClient class itself is not part of this model; it is taken to
      be confidential, without JWT support and without a lifetime table. */
  function PasswordClient(publicId: string, secret: string, redirectUris: seq<string>, grantTypes: seq<string>): (c: Client)
    ensures c.publicId == publicId && c.confidential && !c.jwtClient
    ensures c.plaintextSecret == Some(secret) && c.allowedGrantTypes == grantTypes
  {
    Client(publicId, true, false, grantTypes, Some(secret), redirectUris, NoLifetimeExtension)
  }

  const Bar := PasswordClient("bar", "secret", ["http://example.com/test?good=false"], AllGrantTypes)
  const Baz := PasswordClient("baz", "secret", [], ["authorization_code"])
  const Mufasa := PasswordClient("Mufasa", "Circle Of Life", [], AllGrantTypes)

  /** Every client is stored under its own public id. */
  ghost predicate KeyedByPublicId(clients: map<string, Client>) {
    forall id :: id in clients ==> clients[id].publicId == id
  }

  class PasswordClientManager {
    var clients: map<string, Client>

    constructor ()
      ensures clients == map[]
    {
      clients := map[];
    }

    /** `getClient`: the registered client, or null. */
    function GetClient(id: string): (r: Option<Client>)
      reads this
      ensures r.Some? <==> id in clients
      ensures r.Some? ==> r.value == clients[id]
    {
      if id in clients then Some(clients[id]) else None
    }

    /** `createClients`: registers the three fixtures, each under its own
        public id, overwriting any earlier entry with the same id. The
        `updateClientCredentials` call on each fixture belongs to a base
        class that is not part of this model, and is not applied. */
    method CreateClients()
      modifies this
      ensures clients == old(clients)["bar" := Bar]["baz" := Baz]["Mufasa" := Mufasa]
      ensures KeyedByPublicId(old(clients)) ==> KeyedByPublicId(clients)
    {
      clients := clients["bar" := Bar];
      clients := clients["baz" := Baz];
      clients := clients["Mufasa" := Mufasa];
    }
  }

  /** The registry the fixtures make, as a value. */
  function Fixtures(): map<string, Client> {
    map["bar" := Bar, "baz" := Baz, "Mufasa" := Mufasa]
  }

  /** On a fresh registry, createClients registers exactly bar, baz and
      Mufasa, with the grant types and secrets of the fixtures. */
  method FixtureRegistry() returns (registry: map<string, Client>)
    ensures registry == Fixtures()
    ensures registry.Keys == {"bar", "baz", "Mufasa"}
    ensures KeyedByPublicId(registry)
    ensures registry["baz"].allowedGrantTypes == ["authorization_code"]
    ensures "password" in registry["bar"].allowedGrantTypes && "refresh_token" in registry["bar"].allowedGrantTypes
    ensures registry["bar"].allowedGrantTypes == registry["Mufasa"].allowedGrantTypes == AllGrantTypes
    ensures registry["bar"].plaintextSecret == registry["baz"].plaintextSecret == Some("secret")
    ensures registry["Mufasa"].plaintextSecret == Some("Circle Of Life")
    ensures forall id :: id in registry ==> registry[id].confidential
  {
    var manager := new PasswordClientManager();
    manager.CreateClients();
    registry := manager.clients;
    assert AllGrantTypes[1] == "password" && AllGrantTypes[5] == "refresh_token";
  }
}
