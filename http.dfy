/**
 * The parts of Go's `net/http` and `net/textproto` that the middleware relies
 * on: status codes and header-name canonicalisation.  `Header.Get` and
 * `Header.Set` look keys up in canonical form, which makes header names
 * case-insensitive.
 */
module Http {

  const StatusOK := 200
  const StatusNoContent := 204

  /** A byte allowed in a header field name (the `tchar` set of RFC 7230, section 3.2.6). */
  predicate IsTokenChar(c: char) {
    || ('a' <= c <= 'z') || ('A' <= c <= 'Z') || ('0' <= c <= '9')
    || c == '!' || c == '#' || c == '$' || c == '%' || c == '&' || c == '\'' || c == '*'
    || c == '+' || c == '-' || c == '.' || c == '^' || c == '_' || c == '`' || c == '|' || c == '~'
  }

  predicate IsValidKey(s: string) {
    forall i | 0 <= i < |s| :: IsTokenChar(s[i])
  }

  /** The canonical form of the character at `i`: upper case at the start and after '-', lower case elsewhere. */
  function CanonChar(s: string, i: nat): char
    requires i < |s|
  {
    var c := s[i];
    var upper := i == 0 || s[i - 1] == '-';
    if upper && 'a' <= c <= 'z' then (c as int - 32) as char
    else if !upper && 'A' <= c <= 'Z' then (c as int + 32) as char
    else c
  }

  /**
   * `textproto.CanonicalMIMEHeaderKey`: "content-type" becomes
   * "Content-Type"; a key holding a character outside the token set (a space,
   * say) is returned unchanged.
   */
  function CanonicalKey(s: string): (r: string)
    ensures |r| == |s|
    ensures !IsValidKey(s) ==> r == s
  {
    if IsValidKey(s) then seq(|s|, i requires 0 <= i < |s| => CanonChar(s, i)) else s
  }

  /** A header map as `net/http` builds it from a request: every key in canonical form. */
  predicate CanonicalHeader(h: map<string, string>) {
    forall k | k in h :: CanonicalKey(k) == k
  }

  /** A key already in canonical form is its own canonical form. */
  lemma CanonicalKeyOfCanonical(s: string)
    requires IsValidKey(s)
    requires forall i | 0 <= i < |s| :: CanonChar(s, i) == s[i]
    ensures CanonicalKey(s) == s
  {
  }

  /** The header names the ingress code uses, in canonical form. */
  lemma CanonicalAuthorization()
    ensures CanonicalKey("Authorization") == "Authorization"
  {
    var k := "Authorization";
    assert IsValidKey(k);
  }

  lemma CanonicalOrigin()
    ensures CanonicalKey("Origin") == "Origin"
  {
    var k := "Origin";
    assert IsValidKey(k);
  }

  lemma CanonicalTraceId()
    ensures CanonicalKey("traceid") == "Traceid"
  {
    var k := "traceid";
    assert IsValidKey(k);
  }

  lemma CanonicalAllowOrigin()
    ensures CanonicalKey("Access-Control-Allow-Origin") == "Access-Control-Allow-Origin"
  {
    var k := "Access-Control-Allow-Origin";
    assert IsValidKey(k);
    assert forall i | 0 <= i < |k| :: CanonChar(k, i) == k[i];
    CanonicalKeyOfCanonical(k);
  }

  lemma CanonicalAllowMethods()
    ensures CanonicalKey("Access-Control-Allow-Methods") == "Access-Control-Allow-Methods"
  {
    var k := "Access-Control-Allow-Methods";
    assert IsValidKey(k);
    assert forall i | 0 <= i < |k| :: CanonChar(k, i) == k[i];
    CanonicalKeyOfCanonical(k);
  }

  lemma CanonicalAllowHeaders()
    ensures CanonicalKey("Access-Control-Allow-Headers") == "Access-Control-Allow-Headers"
  {
    var k := "Access-Control-Allow-Headers";
    assert IsValidKey(k);
    assert forall i | 0 <= i < |k| :: CanonChar(k, i) == k[i];
    CanonicalKeyOfCanonical(k);
  }

  lemma CanonicalExposeHeaders()
    ensures CanonicalKey("Access-Control-Expose-Headers") == "Access-Control-Expose-Headers"
  {
    var k := "Access-Control-Expose-Headers";
    assert IsValidKey(k);
    assert forall i | 0 <= i < |k| :: CanonChar(k, i) == k[i];
    CanonicalKeyOfCanonical(k);
  }

  lemma CanonicalAllowCredentials()
    ensures CanonicalKey("Access-Control-Allow-Credentials") == "Access-Control-Allow-Credentials"
  {
    var k := "Access-Control-Allow-Credentials";
    assert IsValidKey(k);
    assert forall i | 0 <= i < |k| :: CanonChar(k, i) == k[i];
    CanonicalKeyOfCanonical(k);
  }
}
