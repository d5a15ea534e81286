/** Values shared by every component of the authorization server: optional
    and failure-carrying results, the error taxonomy with its HTTP statuses,
    the configuration service, and the few PHP string semantics the core
    relies on (emptiness, ASCII case mapping). */
module Common {

  datatype Option<+T> = None | Some(value: T) {
    function GetOr(default: T): T {
      match this
      case Some(v) => v
      case None => default
    }
  }

  datatype Result<+R, +E> = Success(value: R) | Failure(error: E)

  // ---------------------------------------------------------------------
  // Error taxonomy: an HTTP status, a short code and a description.
  // ---------------------------------------------------------------------

  const Found := 302
  const BadRequest := 400
  const InternalServerError := 500
  const NotImplemented := 501

  const InvalidRequest := "invalid_request"
  const InvalidClient := "invalid_client"
  const ServerErrorCode := "server_error"
  const UnsupportedTokenType := "unsupported_token_type"

  /** An exception produced by the exception manager. */
  datatype Error = Error(status: int, code: string, description: string)

  // ---------------------------------------------------------------------
  // Configuration: key lookup with a caller-supplied default.
  // ---------------------------------------------------------------------

  datatype Configuration = Configuration(
    ints: map<string, int>,
    strings: map<string, string>,
    flags: map<string, bool>)
  {
    function GetInt(key: string, default: int): (r: int)
      ensures key in ints ==> r == ints[key]
      ensures key !in ints ==> r == default
    {
      if key in ints then ints[key] else default
    }

    function GetString(key: string, default: string): (r: string)
      ensures key in strings ==> r == strings[key]
      ensures key !in strings ==> r == default
    {
      if key in strings then strings[key] else default
    }

    function GetFlag(key: string, default: bool): (r: bool)
      ensures key in flags ==> r == flags[key]
      ensures key !in flags ==> r == default
    {
      if key in flags then flags[key] else default
    }
  }

  /** A configuration in which every key takes its default. */
  const DefaultConfiguration := Configuration(map[], map[], map[])

  // ---------------------------------------------------------------------
  // PHP string semantics.
  // ---------------------------------------------------------------------

  /** PHP's `empty()` on a value that is a string or null. */
  predicate PhpEmpty(s: Option<string>) {
    s.None? || s.value == "" || s.value == "0"
  }

  /** Value of an array entry that may be absent: PHP reads an undefined
      index as null, which concatenates as the empty string. */
  function Lookup(m: map<string, string>, key: string): string {
    if key in m then m[key] else ""
  }

  /** An array entry read with `array_key_exists` and null as the
      fallback: the value stored under the key, or null. This is
      `RequestBody::getParameter` on the parsed body. */
  function Entry(m: map<string, string>, key: string): (r: Option<string>)
    ensures r.Some? <==> key in m
    ensures r.Some? ==> r.value == m[key]
  {
    if key in m then Some(m[key]) else None
  }

  function LowerChar(c: char): char {
    if 'A' <= c <= 'Z' then (c as int + 32) as char else c
  }

  function UpperChar(c: char): char {
    if 'a' <= c <= 'z' then (c as int - 32) as char else c
  }

  /** `strtolower`: ASCII letters only, length kept. */
  function ToLower(s: string): (r: string)
    ensures |r| == |s|
    ensures forall i :: 0 <= i < |s| ==> r[i] == LowerChar(s[i])
  {
    if s == [] then [] else [LowerChar(s[0])] + ToLower(s[1..])
  }

  /** `strtoupper`: ASCII letters only, length kept. */
  function ToUpper(s: string): (r: string)
    ensures |r| == |s|
    ensures forall i :: 0 <= i < |s| ==> r[i] == UpperChar(s[i])
  {
    if s == [] then [] else [UpperChar(s[0])] + ToUpper(s[1..])
  }

  /** `implode(sep, parts)`. */
  function Join(parts: seq<string>, sep: string): string {
    if parts == [] then ""
    else if |parts| == 1 then parts[0]
    else parts[0] + sep + Join(parts[1..], sep)
  }
}
