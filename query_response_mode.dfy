/** The query response mode of OAuth 2.0 Multiple Response Type Encoding
    Practices, section 2.1: the authorization response's data goes in the
    query of the redirect URI, under the single key `query`. The URI
    builder is the parameter `buildUri`. */
module QueryMode {
  /** The parts of an HTTP response the mode touches. */
  datatype HttpResponse = HttpResponse(status: int, headers: map<string, string>, body: string)

  const Name := "query"

  function GetName(): (r: string)
    ensures r == "query"
  {
    Name
  }

  /** The URI parameters: none for empty data, otherwise the data under
      the mode's name. */
  function Params(data: map<string, string>): (params: map<string, map<string, string>>)
    ensures data == map[] ==> params == map[]
    ensures data != map[] ==> params.Keys == {Name} && params[Name] == data
  {
    if data == map[] then map[] else map[GetName() := data]
  }

  /** The parameters give the data back: the encoding loses nothing. */
  lemma ParamsRecoverData(data: map<string, string>)
    ensures var params := Params(data);
            data == (if Name in params then params[Name] else map[])
  {
  }

  /** `prepareResponse`: status 302 and a Location built from the redirect
      URI and the parameters; the other headers and the body stay. */
  function PrepareResponse(redirectUri: string, data: map<string, string>, response: HttpResponse,
                           buildUri: (string, map<string, map<string, string>>) -> string): (r: HttpResponse)
    ensures r.status == 302 && r.body == response.body
    ensures r.headers.Keys == response.headers.Keys + {"Location"}
    ensures r.headers["Location"] == buildUri(redirectUri, Params(data))
    ensures forall h :: h in response.headers && h != "Location" ==> r.headers[h] == response.headers[h]
  {
    response.(status := 302).(headers := response.headers["Location" := buildUri(redirectUri, Params(data))])
  }
}
