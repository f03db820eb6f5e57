/** Extraction of an API key from the value of an `Authorization` request
    header (package internal/auth). The header value is what
    `r.Header.Get("Authorization")` returns: the first such header, or the
    empty string when the request has none. */
module Auth {
  import opened Wrappers

  /** The two errors GetAuthHeader returns. */
  datatype AuthError =
    | Malformed                       // "malformed authorization header"
    | SchemeNotFound(keyName: Bytes)  // "<keyName> not found in authorization header"

  /** The scheme name is the first |keyName| bytes and the key is everything
      after one more byte. That byte is meant to be the separating space, but
      it is never looked at. */
  function GetAuthHeader(authHeader: Bytes, keyName: Bytes): (r: Result<Bytes, AuthError>)
    // the length test comes first and is the only source of Malformed
    ensures r == Failure(Malformed) <==> |authHeader| < |keyName| + 1
    // a long enough header whose first |keyName| bytes differ (byte for byte)
    ensures r == Failure(SchemeNotFound(keyName)) <==>
              |authHeader| >= |keyName| + 1 && authHeader[..|keyName|] != keyName
    ensures r.Success? <==> |authHeader| >= |keyName| + 1 && authHeader[..|keyName|] == keyName
    // on success the header is the scheme, one arbitrary byte and the key
    ensures r.Success? ==>
              |r.value| == |authHeader| - |keyName| - 1 &&
              authHeader == keyName + [authHeader[|keyName|]] + r.value
  {
    if |authHeader| < |keyName| + 1 then
      Failure(Malformed)
    else if authHeader[..|keyName|] != keyName then
      Failure(SchemeNotFound(keyName))
    else
      Success(authHeader[|keyName| + 1..])
  }

  /** Scheme name, any one byte, then the key: the key comes back unchanged,
      the empty key included. */
  lemma RoundTrip(keyName: Bytes, separator: bv8, key: Bytes)
    ensures GetAuthHeader(keyName + [separator] + key, keyName) == Success(key)
  {
    var h := keyName + [separator] + key;
    assert h[..|keyName|] == keyName;
    assert h[|keyName| + 1..] == key;
  }

  /** Success with a given key happens exactly for headers of that shape. */
  lemma SuccessIff(authHeader: Bytes, keyName: Bytes, key: Bytes)
    ensures GetAuthHeader(authHeader, keyName) == Success(key) <==>
              |authHeader| == |keyName| + 1 + |key| &&
              authHeader == keyName + [authHeader[|keyName|]] + key
  {
    if |authHeader| == |keyName| + 1 + |key| && authHeader == keyName + [authHeader[|keyName|]] + key {
      RoundTrip(keyName, authHeader[|keyName|], key);
    }
  }

  /** The byte after the scheme name can be replaced by any byte without
      changing the outcome. */
  lemma SeparatorNotInspected(authHeader: Bytes, keyName: Bytes, separator: bv8)
    requires |authHeader| >= |keyName| + 1
    ensures GetAuthHeader(authHeader[|keyName| := separator], keyName) ==
            GetAuthHeader(authHeader, keyName)
  {
    var h := authHeader[|keyName| := separator];
    assert h[..|keyName|] == authHeader[..|keyName|];
    assert h[|keyName| + 1..] == authHeader[|keyName| + 1..];
  }

  /** A request without the header, or with a header that stops inside (or
      right after) the scheme name, gets Malformed, never SchemeNotFound. */
  lemma ShortPrefixIsMalformed(authHeader: Bytes, keyName: Bytes)
    requires authHeader <= keyName
    ensures GetAuthHeader(authHeader, keyName) == Failure(Malformed)
  {
  }

  /** Case-insensitive equality of ASCII bytes, the comparison that section
      11.1 of RFC 9110 prescribes for authentication scheme names. */
  predicate SameIgnoringAsciiCase(a: Bytes, b: Bytes)
  {
    |a| == |b| && forall i | 0 <= i < |a| :: Lower(a[i]) == Lower(b[i])
  }

  function Lower(c: bv8): bv8
  {
    if 0x41 <= c <= 0x5A then c + 0x20 else c
  }

  /** "apikey x" names the scheme "ApiKey" as RFC 9110 reads it, but the
      byte comparison rejects it. */
  lemma SchemeIsCaseSensitive()
    ensures SameIgnoringAsciiCase(Ascii("apikey x")[..6], Ascii("ApiKey"))
    ensures GetAuthHeader(Ascii("apikey x"), Ascii("ApiKey")) ==
            Failure(SchemeNotFound(Ascii("ApiKey")))
  {
    var h, k := Ascii("apikey x"), Ascii("ApiKey");
    assert h == [0x61, 0x70, 0x69, 0x6B, 0x65, 0x79, 0x20, 0x78];
    assert k == [0x41, 0x70, 0x69, 0x4B, 0x65, 0x79];
    assert h[..6][0] != k[0];
  }

  /** "ApiKeyXabc" yields the key "abc": the 'X' in the separator position
      is accepted. */
  lemma SeparatorExample()
    ensures GetAuthHeader(Ascii("ApiKeyXabc"), Ascii("ApiKey")) == Success(Ascii("abc"))
  {
    var h, k, key := Ascii("ApiKeyXabc"), Ascii("ApiKey"), Ascii("abc");
    assert h == [0x41, 0x70, 0x69, 0x4B, 0x65, 0x79, 0x58, 0x61, 0x62, 0x63];
    assert k == [0x41, 0x70, 0x69, 0x4B, 0x65, 0x79];
    assert key == [0x61, 0x62, 0x63];
    assert h == k + [0x58] + key;
    RoundTrip(k, 0x58, key);
  }
}
