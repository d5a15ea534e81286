/** The parsed `Authorization: Digest` header of RFC 2617 and its server-side
    checks: the mandatory directives (section 3.2.2), the quality of
    protection, the realm, the server's `opaque` and `nonce` (an expiry time
    and its HMAC, base64-encoded), and the request-digest computation of
    section 3.2.2.1 with A1 as in section 3.2.2.2 and A2 as in section
    3.2.2.3. MD5, HMAC-SHA512 and base64 are parameters; the header's regular
    expression is represented by the sequence of matches it yields. */
module Digest {
  import opened Common

  /** The hash and encoding functions the checks call: `md5` (hex),
      `hash_hmac('sha512', data, key)` in hex and in raw form, and base64
      (where decoding can fail). */
  datatype Crypto = Crypto(
    md5: string -> string,
    hmacHex: (string, string) -> string,
    hmacRaw: (string, string) -> string,
    base64Encode: string -> string,
    base64Decode: string -> Option<string>)

  // -----------------------------------------------------------------------
  // Parsing
  // -----------------------------------------------------------------------

  /** One match of `(\w+)=("((?:[^"\\]|\\.)+)"|([^\s,$]+))` in
      PREG_SET_ORDER form: group 1 is the key, group 3 the inside of a quoted
      value, group 4 a bare value. PCRE reports an unmatched group that comes
      before a matched one as "" and drops unmatched trailing groups. */
  datatype PregMatch = PregMatch(group1: Option<string>, group3: Option<string>, group4: Option<string>)

  /** The match of `key="inner"`. */
  function QuotedMatch(key: string, inner: string): (m: PregMatch)
    ensures Stored(m) && m.group1 == Some(key) && StoredValue(m) == inner
  {
    PregMatch(Some(key), Some(inner), None)
  }

  /** The match of `key=value` without quotes. */
  function BareMatch(key: string, value: string): (m: PregMatch)
    ensures Stored(m) && m.group1 == Some(key) && StoredValue(m) == value
  {
    PregMatch(Some(key), Some(""), Some(value))
  }

  /** The constructor keeps a match when groups 1 and 3 are set. */
  predicate Stored(m: PregMatch) {
    m.group1.Some? && m.group3.Some?
  }

  function StoredValue(m: PregMatch): string
    requires Stored(m)
  {
    if m.group4.Some? then m.group4.value else m.group3.value
  }

  predicate SetsKey(m: PregMatch, key: string) {
    Stored(m) && m.group1.value == key
  }

  /** The elements map after the first `|matches|` matches. */
  function FoldMatches(matches: seq<PregMatch>): map<string, string>
    decreases |matches|
  {
    if matches == [] then map[]
    else
      var elements := FoldMatches(matches[..|matches| - 1]);
      var m := matches[|matches| - 1];
      if Stored(m) then elements[m.group1.value := StoredValue(m)] else elements
  }

  /** A key is present exactly when some match sets it, and its value is
      the one of the last match that sets it. */
  lemma {:induction false} FoldMatchesLastWins(matches: seq<PregMatch>, key: string)
    ensures key in FoldMatches(matches) <==> exists i :: 0 <= i < |matches| && SetsKey(matches[i], key)
    ensures forall i :: 0 <= i < |matches| && SetsKey(matches[i], key) &&
                        (forall j :: i < j < |matches| ==> !SetsKey(matches[j], key)) ==>
                          FoldMatches(matches)[key] == StoredValue(matches[i])
    decreases |matches|
  {
    if matches != [] {
      var n := |matches| - 1;
      var prefix := matches[..n];
      FoldMatchesLastWins(prefix, key);
      assert forall i :: 0 <= i < n ==> prefix[i] == matches[i];
      if SetsKey(matches[n], key) {
        assert FoldMatches(matches)[key] == StoredValue(matches[n]);
      } else {
        assert FoldMatches(matches) == FoldMatches(prefix) || FoldMatches(matches) == FoldMatches(prefix)[matches[n].group1.value := StoredValue(matches[n])];
        forall i | 0 <= i < |matches| && SetsKey(matches[i], key) && (forall j :: i < j < |matches| ==> !SetsKey(matches[j], key))
          ensures FoldMatches(matches)[key] == StoredValue(matches[i])
        {
          assert i < n;
          assert forall j :: i < j < n ==> !SetsKey(prefix[j], key);
        }
      }
    }
  }

  // -----------------------------------------------------------------------
  // Usernames: the quoted-pair escapes of `username`
  // -----------------------------------------------------------------------

  /** `strtr(s, ['\"' => '"', '\\' => '\'])`: left to right, each escaped
      quote or backslash is replaced by the character it escapes. */
  function Unescape(s: string): (r: string)
    ensures |r| <= |s|
    decreases |s|
  {
    if |s| >= 2 && s[0] == '\\' && (s[1] == '"' || s[1] == '\\') then [s[1]] + Unescape(s[2..])
    else if s == [] then []
    else [s[0]] + Unescape(s[1..])
  }

  /** How a client writes a username inside a quoted string. */
  function Escape(s: string): (r: string)
    ensures |r| >= |s|
  {
    if s == [] then []
    else (if s[0] == '"' || s[0] == '\\' then ['\\', s[0]] else [s[0]]) + Escape(s[1..])
  }

  /** Unescaping undoes the escaping of any username. */
  lemma {:induction false} UnescapeEscape(s: string)
    ensures Unescape(Escape(s)) == s
  {
    if s != [] {
      UnescapeEscape(s[1..]);
      var e := Escape(s);
      if s[0] == '"' || s[0] == '\\' {
        assert e == ['\\', s[0]] + Escape(s[1..]);
        assert e[2..] == Escape(s[1..]);
      } else {
        assert e == [s[0]] + Escape(s[1..]);
        assert e[1..] == Escape(s[1..]);
        assert !(|e| >= 2 && e[0] == '\\');
      }
    }
  }

  lemma UnescapeAll()
    ensures forall s {:trigger Escape(s)} :: Unescape(Escape(s)) == s
  {
    forall s ensures Unescape(Escape(s)) == s {
      UnescapeEscape(s);
    }
  }

  /** A username without backslashes is returned as stored. */
  lemma {:induction false} UnescapeWithoutBackslash(s: string)
    requires '\\' !in s
    ensures Unescape(s) == s
    decreases |s|
  {
    if s != [] {
      assert '\\' !in s[1..];
      UnescapeWithoutBackslash(s[1..]);
    }
  }

  // -----------------------------------------------------------------------
  // The checks
  // -----------------------------------------------------------------------

  /** A check passes, or fails with the message of its
      InvalidArgumentException. */
  datatype Verdict = Accepted | Rejected(message: string)

  const MandatoryKeys: seq<string> := ["username", "realm", "nonce", "uri", "response", "opaque"]

  /** `a` is `b` with some elements dropped, the order kept. */
  predicate IsSubsequence(a: seq<string>, b: seq<string>)
    decreases |b|
  {
    if a == [] then true
    else if b == [] then false
    else if a[0] == b[0] then IsSubsequence(a[1..], b[1..])
    else IsSubsequence(a, b[1..])
  }

  /** `array_diff(keys, array_keys(elements))`: the keys that are absent,
      in their order in `keys`. */
  function MissingKeys(keys: seq<string>, elements: map<string, string>): (missing: seq<string>)
    ensures forall k :: k in missing <==> k in keys && k !in elements
    ensures IsSubsequence(missing, keys)
  {
    if keys == [] then []
    else if keys[0] in elements then MissingKeys(keys[1..], elements)
    else [keys[0]] + MissingKeys(keys[1..], elements)
  }

  /** `checkElements`: fails exactly when a mandatory directive is absent,
      naming the absent ones in order. */
  function CheckElements(elements: map<string, string>): (v: Verdict)
    ensures v.Accepted? <==> forall k :: k in MandatoryKeys ==> k in elements
    ensures v.Rejected? ==>
              v.message == "Missing mandatory digest value(s): " + Join(MissingKeys(MandatoryKeys, elements), ", ") + "."
  {
    var missing := MissingKeys(MandatoryKeys, elements);
    assert missing != [] ==> missing[0] in missing;
    if missing != [] then Rejected("Missing mandatory digest value(s): " + Join(missing, ", ") + ".")
    else Accepted
  }

  /** `checkQualityOfProtection`: with qop `auth` or `auth-int`, `nc` and
      `cnonce` are required; an absent qop (null) matches neither. */
  function CheckQualityOfProtection(elements: map<string, string>): (v: Verdict)
    ensures v.Rejected? <==> Entry(elements, "qop") in {Some("auth"), Some("auth-int")} &&
                             ("nc" !in elements || "cnonce" !in elements)
    ensures "qop" !in elements ==> v.Accepted?
  {
    if "qop" in elements && elements["qop"] in ["auth", "auth-int"] && ("nc" !in elements || "cnonce" !in elements)
    then Rejected("Missing mandatory digest value \"nc\" or \"cnonce\".")
    else Accepted
  }

  /** `checkRealm`: the realm must be the system's, byte for byte. */
  function CheckRealm(elements: map<string, string>, expectedRealm: string): (v: Verdict)
    ensures v.Accepted? <==> Entry(elements, "realm") == Some(expectedRealm)
  {
    if Entry(elements, "realm") != Some(expectedRealm) then
      Rejected("Response realm name \"" + Lookup(elements, "realm") + "\" does not match system realm name of \"" + expectedRealm + "\".")
    else Accepted
  }

  /** The `opaque` the server issues for a nonce and a realm. */
  function ExpectedOpaque(nonce: string, realm: string, key: string, crypto: Crypto): string {
    crypto.base64Encode(crypto.hmacRaw(nonce + realm, key))
  }

  /** `checkOpaque`: `opaque` must be the server's for this nonce. */
  function CheckOpaque(elements: map<string, string>, expectedRealm: string, key: string, crypto: Crypto): (v: Verdict)
    ensures v.Accepted? <==> Entry(elements, "opaque") == Some(ExpectedOpaque(Lookup(elements, "nonce"), expectedRealm, key, crypto))
  {
    if Entry(elements, "opaque") != Some(ExpectedOpaque(Lookup(elements, "nonce"), expectedRealm, key, crypto))
    then Rejected("Invalid \"opaque\" value.")
    else Accepted
  }

  /** `explode(c, s)`: the pieces between occurrences of `c`. */
  function Explode(c: char, s: string): (parts: seq<string>)
    ensures |parts| >= 1
    ensures forall i :: 0 <= i < |parts| ==> c !in parts[i]
    decreases |s|
  {
    if s == [] then [[]]
    else
      var rest := Explode(c, s[1..]);
      if s[0] == c then [[]] + rest else [[s[0]] + rest[0]] + rest[1..]
  }

  lemma {:induction false} ExplodeWithoutSeparator(c: char, a: string)
    requires c !in a
    ensures Explode(c, a) == [a]
    decreases |a|
  {
    if a != [] {
      assert c !in a[1..];
      ExplodeWithoutSeparator(c, a[1..]);
      assert [a[0]] + a[1..] == a;
    }
  }

  lemma {:induction false} ExplodeAfterPiece(c: char, a: string, rest: string)
    requires c !in a
    ensures Explode(c, a + [c] + rest) == [a] + Explode(c, rest)
    decreases |a|
  {
    var s := a + [c] + rest;
    if a == [] {
      assert s[1..] == rest;
    } else {
      assert s[1..] == a[1..] + [c] + rest;
      assert c !in a[1..];
      ExplodeAfterPiece(c, a[1..], rest);
      assert [a[0]] + a[1..] == a;
    }
  }

  /** A string splits into exactly the two pieces around its only
      separator. */
  lemma ExplodeTwoPieces(c: char, a: string, b: string)
    requires c !in a && c !in b
    ensures Explode(c, a + [c] + b) == [a, b]
  {
    ExplodeAfterPiece(c, a, b);
    ExplodeWithoutSeparator(c, b);
  }

  /** Explode glues back: joining the pieces with the separator gives the
      string. */
  lemma {:induction false} ExplodeJoin(c: char, s: string)
    ensures Join(Explode(c, s), [c]) == s
    decreases |s|
  {
    if s != [] {
      ExplodeJoin(c, s[1..]);
      var rest := Explode(c, s[1..]);
      if s[0] == c {
        assert Join([[]] + rest, [c]) == [] + [c] + Join(rest, [c]);
      } else {
        var head := [[s[0]] + rest[0]] + rest[1..];
        if |rest| == 1 {
          assert head == [[s[0]] + rest[0]];
        } else {
          assert head[1..] == rest[1..];
          assert Join(rest, [c]) == rest[0] + [c] + Join(rest[1..], [c]);
          assert Join(head, [c]) == ([s[0]] + rest[0]) + [c] + Join(rest[1..], [c]);
        }
      }
    }
  }

  /** The nonce's three failure messages. */
  function NotBase64(nonce: string): string { "Nonce is not encoded in Base64; received nonce \"" + nonce + "\"." }
  function NotTwoTokens(plain: string): string { "Nonce should have yielded two tokens but was \"" + plain + "\"." }
  function Compromised(plain: string): string { "Nonce token compromised \"" + plain + "\"." }

  /** `checkNonce` as a function: the verdict, and the expiry time it
      records (the first token, stored as soon as the nonce has split into
      two tokens, before the HMAC comparison). */
  function NonceCheck(elements: map<string, string>, key: string, crypto: Crypto): (Verdict, Option<string>) {
    var nonce := Lookup(elements, "nonce");
    match crypto.base64Decode(nonce)
    case None => (Rejected(NotBase64(nonce)), None)
    case Some(plain) =>
      var tokens := Explode(':', plain);
      if |tokens| != 2 then (Rejected(NotTwoTokens(plain)), None)
      else if crypto.hmacHex(tokens[0] + key, key) != tokens[1] then (Rejected(Compromised(plain)), Some(tokens[0]))
      else (Accepted, Some(tokens[0]))
  }

  /** The nonce is accepted exactly when it decodes to `time:hmac` with a
      single colon, where `hmac` is the HMAC of `time` followed by the server
      key, keyed with that key; then `time` is the recorded expiry. */
  lemma NonceAcceptedIffAuthenticated(elements: map<string, string>, key: string, crypto: Crypto)
    ensures var decoded := crypto.base64Decode(Lookup(elements, "nonce"));
            NonceCheck(elements, key, crypto).0.Accepted? <==>
              decoded.Some? &&
              exists time, mac :: ':' !in time && ':' !in mac && decoded.value == time + ":" + mac &&
                                  crypto.hmacHex(time + key, key) == mac
    ensures var decoded := crypto.base64Decode(Lookup(elements, "nonce"));
            forall time, mac :: decoded == Some(time + ":" + mac) && ':' !in time && ':' !in mac ==>
              NonceCheck(elements, key, crypto).1 == Some(time)
  {
    var decoded := crypto.base64Decode(Lookup(elements, "nonce"));
    if decoded.Some? {
      var tokens := Explode(':', decoded.value);
      if |tokens| == 2 {
        ExplodeJoin(':', decoded.value);
        assert decoded.value == tokens[0] + ":" + tokens[1];
      }
      forall time, mac | ':' !in time && ':' !in mac && decoded.value == time + ":" + mac
        ensures tokens == [time, mac]
      {
        ExplodeTwoPieces(':', time, mac);
      }
    }
  }

  /** `validateAndDecode` as a function: elements, qop, realm, opaque, then
      the nonce; the first failure is the result, and only a run that
      reaches the nonce check records an expiry. */
  function Validation(elements: map<string, string>, key: string, expectedRealm: string, crypto: Crypto)
    : (Verdict, Option<string>)
  {
    var checks := [CheckElements(elements), CheckQualityOfProtection(elements),
                   CheckRealm(elements, expectedRealm), CheckOpaque(elements, expectedRealm, key, crypto)];
    if checks[0].Rejected? then (checks[0], None)
    else if checks[1].Rejected? then (checks[1], None)
    else if checks[2].Rejected? then (checks[2], None)
    else if checks[3].Rejected? then (checks[3], None)
    else NonceCheck(elements, key, crypto)
  }

  /** A header is accepted exactly when every check accepts it, and a
      rejection carries the message of the first check, in the order
      elements, qop, realm, opaque, nonce, that rejects it. */
  lemma ValidationIsFirstFailure(elements: map<string, string>, key: string, expectedRealm: string, crypto: Crypto)
    ensures var v := Validation(elements, key, expectedRealm, crypto).0;
            && (v.Accepted? <==>
                  && CheckElements(elements).Accepted? && CheckQualityOfProtection(elements).Accepted?
                  && CheckRealm(elements, expectedRealm).Accepted?
                  && CheckOpaque(elements, expectedRealm, key, crypto).Accepted?
                  && NonceCheck(elements, key, crypto).0.Accepted?)
            && (CheckElements(elements).Rejected? ==> v == CheckElements(elements))
            && (CheckElements(elements).Accepted? && CheckQualityOfProtection(elements).Rejected? ==>
                  v == CheckQualityOfProtection(elements))
            && (CheckElements(elements).Accepted? && CheckQualityOfProtection(elements).Accepted? &&
                CheckRealm(elements, expectedRealm).Rejected? ==>
                  v == CheckRealm(elements, expectedRealm))
            && (CheckElements(elements).Accepted? && CheckQualityOfProtection(elements).Accepted? &&
                CheckRealm(elements, expectedRealm).Accepted? &&
                CheckOpaque(elements, expectedRealm, key, crypto).Rejected? ==>
                  v == CheckOpaque(elements, expectedRealm, key, crypto))
            && (CheckElements(elements).Accepted? && CheckQualityOfProtection(elements).Accepted? &&
                CheckRealm(elements, expectedRealm).Accepted? &&
                CheckOpaque(elements, expectedRealm, key, crypto).Accepted? ==>
                  Validation(elements, key, expectedRealm, crypto) == NonceCheck(elements, key, crypto))
    ensures Validation(elements, key, expectedRealm, crypto).0.Accepted? ==>
              forall k :: k in MandatoryKeys ==> k in elements
    ensures Validation(elements, key, expectedRealm, crypto).0.Accepted? ==>
              elements["realm"] == expectedRealm
  {
  }

  // -----------------------------------------------------------------------
  // The request-digest of RFC 2617, section 3.2.2.1
  // -----------------------------------------------------------------------

  /** KD(secret, data) = H(secret ":" data). */
  function KD(h: string -> string, secret: string, data: string): string {
    h(secret + ":" + data)
  }

  /** H(A1) for an already hashed user:realm:password: for `MD5-sess`,
      A1 is H(user:realm:password) ":" nonce ":" cnonce. */
  function HashedA1(h: string -> string, a1Md5: string, algorithm: string, nonce: string, cnonce: string): string {
    if algorithm == "MD5-sess" then h(a1Md5 + ":" + nonce + ":" + cnonce) else a1Md5
  }

  /** A2 = Method ":" digest-uri, plus ":" H(entity-body) for `auth-int`. */
  function A2(httpMethod: string, uri: string, qop: Option<string>, contentHash: string): string {
    if qop == Some("auth-int") then ToUpper(httpMethod) + ":" + uri + ":" + contentHash
    else ToUpper(httpMethod) + ":" + uri
  }

  /** The message for a qop the method does not support. */
  function UnsupportedQop(qop: string): string {
    "This method does not support a qop: \"" + qop + "\"."
  }

  /** A string PHP accepts for an `int` parameter, taken here as a
      non-empty run of decimal digits. */
  predicate IsDecimal(s: string) {
    |s| > 0 && forall i :: 0 <= i < |s| ==> '0' <= s[i] <= '9'
  }

  /** What the unsupported-qop branch raises: an `InvalidArgumentException`
      with its message, or, when building that exception fails, the
      engine's own error about the constructor's arguments. */
  datatype QopRefusal = InvalidArgument(message: string) | BadExceptionArguments

  /** The branch as the source writes it: the qop is the exception's second
      argument, the integer code. A decimal qop is accepted as the code
      and the message keeps its placeholder; any other qop makes the
      exception's construction itself fail. */
  function UnsupportedQopAsWritten(qop: string): (r: QopRefusal)
    ensures r.InvalidArgument? <==> IsDecimal(qop)
    ensures r.InvalidArgument? ==> r.message == "This method does not support a qop: \"%s\"."
  {
    if IsDecimal(qop) then InvalidArgument("This method does not support a qop: \"%s\".") else BadExceptionArguments
  }

  /** As written, no qop produces the intended exception: a non-decimal qop
      such as `auth-conf` raises an error of another kind, and a decimal
      one such as `1` an exception whose message does not name it. */
  lemma UnsupportedQopAsWrittenMissesIntent(qop: string)
    ensures UnsupportedQopAsWritten(qop) != InvalidArgument(UnsupportedQop(qop))
    ensures UnsupportedQopAsWritten("auth-conf") == BadExceptionArguments
    ensures UnsupportedQopAsWritten("1") == InvalidArgument(UnsupportedQop("%s"))
  {
    if IsDecimal(qop) {
      if UnsupportedQop(qop) == UnsupportedQop("%s") {
        assert '0' <= qop[0] <= '9' && "%s"[0] == '%';
        UnsupportedQopNamesQop(qop, "%s");
        assert false;
      }
    }
    assert !IsDecimal("auth-conf") by { assert !('0' <= "auth-conf"[0] <= '9'); }
    assert IsDecimal("1");
  }

  /** The corrected message names the qop: different qops, different
      messages. */
  lemma UnsupportedQopNamesQop(q1: string, q2: string)
    requires UnsupportedQop(q1) == UnsupportedQop(q2)
    ensures q1 == q2
  {
    var prefix := "This method does not support a qop: \"";
    var m1, m2 := UnsupportedQop(q1), UnsupportedQop(q2);
    assert |q1| == |q2|;
    assert q1 == m1[|prefix|..|prefix| + |q1|];
    assert q2 == m2[|prefix|..|prefix| + |q2|];
  }

  /** The digest string the method builds with `.=`, regrouped as H(A1)
      ":" followed by KD's data argument. Kept apart so that the method's
      proof does not have to regroup eleven concatenations itself. */
  lemma QualifiedDigestShape(ha1: string, nonce: string, nc: string, cnonce: string, qop: string, ha2: string)
    ensures ha1 + ":" + nonce + ":" + nc + ":" + cnonce + ":" + qop + ":" + ha2 ==
            ha1 + ":" + (nonce + ":" + nc + ":" + cnonce + ":" + qop + ":" + ha2)
  {
  }

  /** The request-digest: for qop `auth` and `auth-int`,
      KD(H(A1), nonce ":" nc ":" cnonce ":" qop ":" H(A2)); without a qop,
      KD(H(A1), nonce ":" H(A2)); any other qop is refused with the
      corrected message `UnsupportedQop`, not with the source's line as
      written (`UnsupportedQopAsWritten`). Absent directives read as "". */
  function RequestDigest(elements: map<string, string>, a1Md5: string, httpMethod: string, algorithm: string,
                         contentHash: string, h: string -> string): Result<string, string>
  {
    var nonce, cnonce := Lookup(elements, "nonce"), Lookup(elements, "cnonce");
    var ha1 := HashedA1(h, a1Md5, algorithm, nonce, cnonce);
    var qop := Entry(elements, "qop");
    var ha2 := h(A2(httpMethod, Lookup(elements, "uri"), qop, contentHash));
    match qop
    case None => Success(KD(h, ha1, nonce + ":" + ha2))
    case Some(q) =>
      if q == "auth" || q == "auth-int" then
        Success(KD(h, ha1, nonce + ":" + Lookup(elements, "nc") + ":" + cnonce + ":" + q + ":" + ha2))
      else Failure(UnsupportedQop(q))
  }

  /** A1 = unq(username) ":" unq(realm) ":" password, hashed; the username
      is the stored element, escapes included. */
  function PasswordA1(elements: map<string, string>, password: string, h: string -> string): string {
    h(Lookup(elements, "username") + ":" + Lookup(elements, "realm") + ":" + password)
  }

  // -----------------------------------------------------------------------
  // The DigestData object
  // -----------------------------------------------------------------------

  class DigestData {
    var elements: map<string, string>
    const header: string
    var nonceExpiryTime: Option<string>

    /** Folds the header's matches into the elements map. */
    constructor (header: string, matches: seq<PregMatch>)
      ensures this.header == header
      ensures elements == FoldMatches(matches)
      ensures nonceExpiryTime == None
    {
      this.header := header;
      var parsed: map<string, string> := map[];
      for i := 0 to |matches|
        invariant parsed == FoldMatches(matches[..i])
      {
        assert matches[..i + 1][..i] == matches[..i];
        var m := matches[i];
        if m.group1.Some? && m.group3.Some? {
          parsed := parsed[m.group1.value := if m.group4.Some? then m.group4.value else m.group3.value];
        }
      }
      assert matches[..|matches|] == matches;
      elements := parsed;
      nonceExpiryTime := None;
    }

    function GetResponse(): (r: string)
      reads this
      ensures "response" in elements ==> r == elements["response"]
    {
      Lookup(elements, "response")
    }

    /** `getUsername`: the stored username with its escapes undone; the
      stored element itself is left as it is. */
    function GetUsername(): (r: string)
      reads this
      ensures |r| <= |Lookup(elements, "username")|
      ensures forall s :: Entry(elements, "username") == Some(Escape(s)) ==> r == s
    {
      UnescapeAll();
      Unescape(Lookup(elements, "username"))
    }

    /** `checkNonce`: records the expiry time once the nonce has split into
      two tokens, then compares the HMAC. */
    method CheckNonce(key: string, crypto: Crypto) returns (v: Verdict)
      modifies this
      ensures v == NonceCheck(elements, key, crypto).0
      ensures elements == old(elements)
      ensures NonceCheck(elements, key, crypto).1.Some? ==> nonceExpiryTime == NonceCheck(elements, key, crypto).1
      ensures NonceCheck(elements, key, crypto).1.None? ==> nonceExpiryTime == old(nonceExpiryTime)
    {
      var nonce := Lookup(elements, "nonce");
      var decoded := crypto.base64Decode(nonce);
      if decoded.None? {
        return Rejected(NotBase64(nonce));
      }
      var plain := decoded.value;
      var tokens := Explode(':', plain);
      if |tokens| != 2 {
        return Rejected(NotTwoTokens(plain));
      }
      nonceExpiryTime := Some(tokens[0]);
      if crypto.hmacHex(tokens[0] + key, key) != tokens[1] {
        return Rejected(Compromised(plain));
      }
      v := Accepted;
    }

    /** `validateAndDecode`: runs the five checks in order and stops at
      the first failure. */
    method ValidateAndDecode(key: string, expectedRealm: string, crypto: Crypto) returns (v: Verdict)
      modifies this
      ensures v == Validation(elements, key, expectedRealm, crypto).0
      ensures elements == old(elements)
      ensures Validation(elements, key, expectedRealm, crypto).1.Some? ==>
                nonceExpiryTime == Validation(elements, key, expectedRealm, crypto).1
      ensures Validation(elements, key, expectedRealm, crypto).1.None? ==> nonceExpiryTime == old(nonceExpiryTime)
    {
      v := CheckElements(elements);
      if v.Rejected? { return; }
      v := CheckQualityOfProtection(elements);
      if v.Rejected? { return; }
      v := CheckRealm(elements, expectedRealm);
      if v.Rejected? { return; }
      v := CheckOpaque(elements, expectedRealm, key, crypto);
      if v.Rejected? { return; }
      v := CheckNonce(key, crypto);
    }

    /** `calculateServerDigestUsingA1MD5`: the digest string and A2 built
      step by step, equal to the request-digest. An unsupported qop is
      refused with the corrected `UnsupportedQop` message. */
    method CalculateServerDigestUsingA1MD5(a1Md5: string, httpMethod: string, algorithm: string,
                                           contentHash: string, h: string -> string)
      returns (r: Result<string, string>)
      ensures r == RequestDigest(elements, a1Md5, httpMethod, algorithm, contentHash, h)
    {
      var nonce, cnonce, nc := Lookup(elements, "nonce"), Lookup(elements, "cnonce"), Lookup(elements, "nc");
      var ha1 := a1Md5;
      if algorithm == "MD5-sess" {
        ha1 := h(ha1 + ":" + nonce + ":" + cnonce);
      }
      var a2 := ToUpper(httpMethod) + ":" + Lookup(elements, "uri");
      var digest := ha1 + ":" + nonce;
      var qop := Entry(elements, "qop");
      if qop.Some? {
        if qop.value == "auth" {
          digest := digest + ":" + nc + ":" + cnonce + ":" + qop.value;
        } else if qop.value == "auth-int" {
          digest := digest + ":" + nc + ":" + cnonce + ":" + qop.value;
          a2 := a2 + ":" + contentHash;
        } else {
          return Failure(UnsupportedQop(qop.value));
        }
      }
      var a2Md5 := h(a2);
      digest := digest + ":" + a2Md5;
      assert a2 == A2(httpMethod, Lookup(elements, "uri"), qop, contentHash);
      assert ha1 == HashedA1(h, a1Md5, algorithm, nonce, cnonce);
      if qop.Some? {
        QualifiedDigestShape(ha1, nonce, nc, cnonce, qop.value, a2Md5);
      } else {
        assert digest == ha1 + ":" + (nonce + ":" + a2Md5);
      }
      r := Success(h(digest));
    }

    /** `calculateServerDigestUsingPassword`: hashes user:realm:password
      into H(A1) and computes the request-digest from it. */
    method CalculateServerDigestUsingPassword(password: string, httpMethod: string, algorithm: string,
                                              contentHash: string, h: string -> string)
      returns (r: Result<string, string>)
      ensures r == RequestDigest(elements, PasswordA1(elements, password, h), httpMethod, algorithm, contentHash, h)
    {
      var a1Md5 := h(Lookup(elements, "username") + ":" + Lookup(elements, "realm") + ":" + password);
      r := CalculateServerDigestUsingA1MD5(a1Md5, httpMethod, algorithm, contentHash, h);
    }
  }

  /** For qop `auth`, the server's digest is the RFC's
      KD(H(A1), nonce:nc:cnonce:auth:H(Method:uri)); it does not depend on
      the content hash. */
  lemma AuthDigestIgnoresContent(elements: map<string, string>, a1Md5: string, httpMethod: string, algorithm: string,
                                 c1: string, c2: string, h: string -> string)
    requires Entry(elements, "qop") == Some("auth")
    ensures RequestDigest(elements, a1Md5, httpMethod, algorithm, c1, h) == RequestDigest(elements, a1Md5, httpMethod, algorithm, c2, h)
    ensures RequestDigest(elements, a1Md5, httpMethod, algorithm, c1, h).Success?
  {
  }

  /** The digest fails exactly for a qop other than `auth` and
      `auth-int`. */
  lemma DigestFailsOnlyForUnknownQop(elements: map<string, string>, a1Md5: string, httpMethod: string, algorithm: string,
                                     contentHash: string, h: string -> string)
    ensures RequestDigest(elements, a1Md5, httpMethod, algorithm, contentHash, h).Failure? <==>
              "qop" in elements && elements["qop"] != "auth" && elements["qop"] != "auth-int"
  {
  }
}
