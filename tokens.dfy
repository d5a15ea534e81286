/** Token values and the generation steps both token managers share: a
    length drawn from a configured range, a random string over a charset,
    and the rejection of a generator result of the wrong length. */
module Tokens {
  import opened Common

  datatype AccessToken = AccessToken(
    token: string,
    clientPublicId: string,
    resourceOwnerPublicId: Option<string>,
    scope: seq<string>,
    expiresAt: int,
    refreshToken: Option<string>)     // the paired refresh token's string

  datatype RefreshToken = RefreshToken(
    token: string,
    clientPublicId: string,
    resourceOwnerPublicId: Option<string>,
    scope: seq<string>,
    expiresAt: int,
    used: bool)

  const UpperLetters := "ABCDEFGHIJKLMNOPQRSTUVWXYZ"
  const LowerLetters := "abcdefghijklmnopqrstuvwxyz"
  const DecimalDigits := "0123456789"
  const ExtraTokenChars := "-._~+/"

  /** Default charset of both managers,
      "ABCDEFGHIJKLMNOPQRSTUVWXYZabcdefghijklmnopqrstuvwxyz0123456789-._~+/":
      the URI-unreserved characters plus `+` and `/`. */
  const DefaultCharset: string := UpperLetters + LowerLetters + DecimalDigits + ExtraTokenChars

  predicate IsTokenChar(c: char) {
    ('A' <= c <= 'Z') || ('a' <= c <= 'z') || ('0' <= c <= '9') ||
    c == '-' || c == '.' || c == '_' || c == '~' || c == '+' || c == '/'
  }

  /** The default charset holds exactly the letters, the digits and
      `-._~+/`. */
  lemma DefaultCharsetIsExact()
    ensures |DefaultCharset| == 68
    ensures forall c :: c in DefaultCharset <==> IsTokenChar(c)
  {
    RangeIsExact(UpperLetters, 'A', 26);
    RangeIsExact(LowerLetters, 'a', 26);
    RangeIsExact(DecimalDigits, '0', 10);
    forall c
      ensures c in DefaultCharset <==> IsTokenChar(c)
    {
      assert c in DefaultCharset <==>
        c in UpperLetters || c in LowerLetters || c in DecimalDigits || c in ExtraTokenChars;
    }
  }

  /** A run of `n` consecutive characters starting at `first`. */
  lemma RangeIsExact(s: string, first: char, n: nat)
    requires |s| == n && first as int + n < 0x1_0000
    requires forall i :: 0 <= i < n ==> s[i] as int == first as int + i
    ensures forall c :: c in s <==> first as int <= c as int < first as int + n
  {
    forall c | first as int <= c as int < first as int + n
      ensures c in s
    {
      assert s[c as int - first as int] == c;
    }
  }

  function Min(a: int, b: int): int { if a <= b then a else b }
  function Max(a: int, b: int): int { if a <= b then b else a }

  /** `rand(min(a, b), max(a, b))` with the random draw made explicit: the
      bounds may be configured in either order. */
  function ChooseLength(a: int, b: int, draw: nat): (n: int)
    ensures Min(a, b) <= n <= Max(a, b)
  {
    Min(a, b) + draw % (Max(a, b) - Min(a, b) + 1)
  }

  /** Swapping the configured bounds changes nothing. */
  lemma ChooseLengthSymmetric(a: int, b: int, draw: nat)
    ensures ChooseLength(a, b, draw) == ChooseLength(b, a, draw)
  {
  }

  /** Every length of the range is drawn by some draw. */
  lemma ChooseLengthCoversRange(a: int, b: int, n: int)
    requires Min(a, b) <= n <= Max(a, b)
    ensures ChooseLength(a, b, n - Min(a, b)) == n
  {
  }

  /** What `DefuseGenerator::getRandomString` did: returned a string,
      returned something that is not a string, or threw. */
  datatype GeneratorOutcome = Generated(s: string) | NotAString | Threw(message: string)

  /** The `server_error` (500) every generation failure is raised as. */
  function GenerationError(message: string): (e: Error)
    ensures e.status == InternalServerError && e.code == ServerErrorCode
  {
    Error(InternalServerError, ServerErrorCode, message)
  }

  /** The checks after the generator: an exception is re-raised as
      `server_error` with its message; a non-string or a string of another
      length is `server_error` with `wrongLengthMessage`. */
  function CheckGenerated(outcome: GeneratorOutcome, length: int, wrongLengthMessage: string): (r: Result<string, Error>)
    ensures r.Success? <==> outcome.Generated? && |outcome.s| == length
    ensures r.Success? ==> r.value == outcome.s && |r.value| == length
    ensures r.Failure? ==> r.error.status == InternalServerError && r.error.code == ServerErrorCode
    ensures outcome.Threw? ==> r.Failure? && r.error.description == outcome.message
    ensures (outcome.NotAString? || (outcome.Generated? && |outcome.s| != length)) ==>
              r.Failure? && r.error.description == wrongLengthMessage
  {
    match outcome
    case Threw(message) => Failure(GenerationError(message))
    case NotAString => Failure(GenerationError(wrongLengthMessage))
    case Generated(s) =>
      if |s| != length then Failure(GenerationError(wrongLengthMessage)) else Success(s)
  }

  /** Everything a token creation draws from outside the manager: the
      configuration, the random draw behind `rand`, the random-string
      generator (given the length and the charset) and the clock. */
  datatype Environment = Environment(
    config: Configuration,
    draw: nat,
    generator: (int, string) -> GeneratorOutcome,
    now: int)
}
