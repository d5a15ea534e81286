/** The redirecting error: an OAuth2 error reported by sending the user
    agent back to the client's redirect URI, with the error data in the
    query or in the fragment. Its status is always 302 and it has no body.
    The error data the base exception builds from the error name,
    description and URI is computed by code that is not part of this model,
    so it is the parameter `baseData`; the redirect URI builder is the
    parameter `buildUri`. */
module Redirect {
  import opened Common
  import opened UrlCoding

  const RedirectUriNotDefined := "redirect_uri_not_defined"
  const InvalidTransportMode := "invalid_transport_mode"

  /** What the constructor keeps: the redirect URI (which may be null), the
      transport mode and the error data. */
  datatype Fields = Fields(redirectUri: Option<string>, transportMode: string, errorData: map<string, string>)

  predicate IsTransportMode(mode: Option<string>) {
    mode == Some("query") || mode == Some("fragment")
  }

  /** The constructor's checks and assignments on `data`, whose values may
      be null: the redirect URI must be there, then a transport mode of
      `query` or `fragment`; a non-null state joins the error data. */
  function Construct(base: map<string, string>, data: map<string, Option<string>>): Result<Fields, string> {
    if "redirect_uri" !in data then Failure(RedirectUriNotDefined)
    else if "transport_mode" !in data || !IsTransportMode(data["transport_mode"]) then Failure(InvalidTransportMode)
    else
      var errorData := if "state" in data && data["state"].Some? then base["state" := data["state"].value] else base;
      Success(Fields(data["redirect_uri"], data["transport_mode"].value, errorData))
  }

  /** The constructor fails exactly when a check fails, the redirect-URI
      check first; on success the fields come from `data`, and the error
      data is the base data, with the state set when one is given. */
  lemma ConstructOutcome(base: map<string, string>, data: map<string, Option<string>>)
    ensures var r := Construct(base, data);
            && (r == Failure(RedirectUriNotDefined) <==> "redirect_uri" !in data)
            && (r == Failure(InvalidTransportMode) <==>
                  "redirect_uri" in data && !("transport_mode" in data && IsTransportMode(data["transport_mode"])))
            && (r.Success? <==> "redirect_uri" in data && "transport_mode" in data && IsTransportMode(data["transport_mode"]))
            && (r.Success? ==>
                  && r.value.redirectUri == data["redirect_uri"]
                  && Some(r.value.transportMode) == data["transport_mode"]
                  && r.value.errorData.Keys == base.Keys + (if "state" in data && data["state"].Some? then {"state"} else {})
                  && (forall k :: k in base && k != "state" ==> r.value.errorData[k] == base[k])
                  && ("state" in data && data["state"].Some? ==> r.value.errorData["state"] == data["state"].value)
                  && (!("state" in data && data["state"].Some?) ==> r.value.errorData == base))
  {
  }

  /** The copy of the error data sent in the Location: `error_uri`
      URL-decoded, everything else as it is. */
  function Decoded(errorData: map<string, string>): (d: map<string, string>)
    ensures d.Keys == errorData.Keys
    ensures forall k :: k in errorData && k != "error_uri" ==> d[k] == errorData[k]
    ensures "error_uri" in errorData ==> d["error_uri"] == UrlDecode(errorData["error_uri"])
  {
    if "error_uri" in errorData then errorData["error_uri" := UrlDecode(errorData["error_uri"])] else errorData
  }

  /** The Location parameters: one entry, named after the transport mode,
      holding the decoded copy of the error data. */
  function LocationParams(f: Fields): (params: map<string, map<string, string>>)
    ensures params.Keys == {f.transportMode}
    ensures params[f.transportMode] == Decoded(f.errorData)
  {
    map[f.transportMode := Decoded(f.errorData)]
  }

  /** An error URI the base data holds URL-encoded reaches the client as
      it was given. */
  lemma ErrorUriRoundTrip(f: Fields, uri: string)
    requires IsByteString(uri)
    requires "error_uri" in f.errorData && f.errorData["error_uri"] == UrlEncode(uri)
    ensures LocationParams(f)[f.transportMode]["error_uri"] == uri
  {
    DecodeEncode(uri);
  }

  class RedirectException {
    const status: int
    const redirectUri: Option<string>
    const transportMode: string
    const errorData: map<string, string>

    constructor (f: Fields)
      ensures status == Found
      ensures redirectUri == f.redirectUri && transportMode == f.transportMode && errorData == f.errorData
    {
      status := Found;
      redirectUri := f.redirectUri;
      transportMode := f.transportMode;
      errorData := f.errorData;
    }

    function FieldValues(): Fields {
      Fields(redirectUri, transportMode, errorData)
    }

    /** `getResponseBody`: there is none. */
    function GetResponseBody(): (r: Option<string>)
      ensures r.None?
    {
      None
    }

    /** `getResponseHeaders`: a single Location header, built from the
        redirect URI and the parameters above. */
    function GetResponseHeaders(buildUri: (Option<string>, map<string, map<string, string>>) -> string): (h: map<string, string>)
      ensures h.Keys == {"Location"}
      ensures h["Location"] == buildUri(redirectUri, LocationParams(FieldValues()))
    {
      var data := errorData;
      var data' := if "error_uri" in data then data["error_uri" := UrlDecode(data["error_uri"])] else data;
      map["Location" := buildUri(redirectUri, map[transportMode := data'])]
    }
  }

  /** `new RedirectException(error, description, uri, data)`: the error
      data of the base exception, then the checks; a failed check is the
      `InvalidArgumentException` with its message. */
  method Create(error: string, description: Option<string>, uri: Option<string>, data: map<string, Option<string>>,
                baseData: (string, Option<string>, Option<string>) -> map<string, string>)
    returns (r: Result<RedirectException, string>)
    ensures var expected := Construct(baseData(error, description, uri), data);
            && (r.Failure? <==> expected.Failure?)
            && (r.Failure? ==> r.error == expected.error)
            && (r.Success? ==> fresh(r.value) && r.value.status == Found && r.value.FieldValues() == expected.value)
  {
    var errorData := baseData(error, description, uri);
    if "redirect_uri" !in data {
      return Failure(RedirectUriNotDefined);
    }
    if "transport_mode" !in data || !IsTransportMode(data["transport_mode"]) {
      return Failure(InvalidTransportMode);
    }
    var transportMode := data["transport_mode"].value;
    var redirectUri := data["redirect_uri"];
    if "state" in data && data["state"].Some? {
      errorData := errorData["state" := data["state"].value];
    }
    var e := new RedirectException(Fields(redirectUri, transportMode, errorData));
    r := Success(e);
  }
}
