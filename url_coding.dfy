/** PHP's `urlencode` and `urldecode` on byte strings (characters below
    256): letters, digits and `-_.` stay, a space becomes `+`, every other
    byte becomes `%` and two upper-case hex digits; decoding turns `+` back
    into a space and `%` with two hex digits of either case into their
    byte, and keeps any other character, a lone `%` included. */
module UrlCoding {
  const HexDigits := "0123456789ABCDEF"

  predicate IsByteString(s: string) {
    forall i :: 0 <= i < |s| ==> s[i] as int < 256
  }

  predicate IsHexDigit(c: char) {
    ('0' <= c <= '9') || ('A' <= c <= 'F') || ('a' <= c <= 'f')
  }

  function HexValue(c: char): (v: int)
    requires IsHexDigit(c)
    ensures 0 <= v < 16
  {
    if '0' <= c <= '9' then c as int - '0' as int
    else if 'A' <= c <= 'F' then c as int - 'A' as int + 10
    else c as int - 'a' as int + 10
  }

  predicate Unreserved(c: char) {
    ('0' <= c <= '9') || ('A' <= c <= 'Z') || ('a' <= c <= 'z') || c == '-' || c == '_' || c == '.'
  }

  /** Each hex digit reads back as its own value. */
  lemma HexDigitValue(n: int)
    requires 0 <= n < 16
    ensures IsHexDigit(HexDigits[n]) && HexValue(HexDigits[n]) == n
  {
    if n < 10 {
      assert HexDigits[n] as int == '0' as int + n;
    } else {
      assert HexDigits[n] as int == 'A' as int + n - 10;
    }
  }

  /** The encoding of one byte. */
  function EncodeByte(c: char): (e: string)
    requires c as int < 256
    ensures |e| == 1 || |e| == 3
    ensures |e| == 1 ==> (e == [c] && Unreserved(c)) || (c == ' ' && e == "+")
    ensures |e| == 3 ==> e[0] == '%' && IsHexDigit(e[1]) && IsHexDigit(e[2]) &&
                         16 * HexValue(e[1]) + HexValue(e[2]) == c as int
  {
    if Unreserved(c) then [c]
    else if c == ' ' then "+"
    else
      HexDigitValue(c as int / 16);
      HexDigitValue(c as int % 16);
      ['%', HexDigits[c as int / 16], HexDigits[c as int % 16]]
  }

  function UrlEncode(s: string): (e: string)
    requires IsByteString(s)
    ensures forall i :: 0 <= i < |e| ==> Unreserved(e[i]) || e[i] == '+' || e[i] == '%'
  {
    if s == [] then [] else EncodeByte(s[0]) + UrlEncode(s[1..])
  }

  function UrlDecode(s: string): (d: string)
    ensures |d| <= |s|
  {
    if s == [] then []
    else if s[0] == '+' then " " + UrlDecode(s[1..])
    else if s[0] == '%' && |s| >= 3 && IsHexDigit(s[1]) && IsHexDigit(s[2])
    then [(16 * HexValue(s[1]) + HexValue(s[2])) as char] + UrlDecode(s[3..])
    else [s[0]] + UrlDecode(s[1..])
  }

  /** Decoding the encoding of one byte followed by anything gives the byte
      followed by the decoding of the rest. */
  lemma DecodeAfterEncodedByte(c: char, rest: string)
    requires c as int < 256
    ensures UrlDecode(EncodeByte(c) + rest) == [c] + UrlDecode(rest)
  {
    var e := EncodeByte(c);
    if |e| == 1 {
      assert (e + rest)[1..] == rest;
    } else {
      assert (e + rest)[3..] == rest;
    }
  }

  /** `urldecode` undoes `urlencode`. */
  lemma {:induction false} DecodeEncode(s: string)
    requires IsByteString(s)
    ensures UrlDecode(UrlEncode(s)) == s
  {
    if s != [] {
      DecodeAfterEncodedByte(s[0], UrlEncode(s[1..]));
      DecodeEncode(s[1..]);
    }
  }

  /** A string without `+` or `%` decodes to itself. */
  lemma {:induction false} DecodeWithoutEscapes(s: string)
    requires forall i :: 0 <= i < |s| ==> s[i] != '+' && s[i] != '%'
    ensures UrlDecode(s) == s
  {
    if s != [] {
      DecodeWithoutEscapes(s[1..]);
    }
  }
}
