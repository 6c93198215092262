/**
 * The slice of the HTTP library vocabulary that the router and the CORS
 * middleware use: request methods with their textual form, header names
 * (lower-case tokens, compared with ASCII case folding against text) and
 * header values. Strings stand for byte strings: each character is one byte.
 */
module Http {
  import opened Wrappers

  /** A request method: the nine standard ones or an extension token. */
  datatype Method =
    | OPTIONS | GET | POST | PUT | DELETE | HEAD | TRACE | CONNECT | PATCH
    | Extension(name: string)

  /** `Method::as_str`. */
  function AsStr(m: Method): string {
    match m
    case OPTIONS => "OPTIONS"
    case GET => "GET"
    case POST => "POST"
    case PUT => "PUT"
    case DELETE => "DELETE"
    case HEAD => "HEAD"
    case TRACE => "TRACE"
    case CONNECT => "CONNECT"
    case PATCH => "PATCH"
    case Extension(name) => name
  }

  /** A `tchar` of section 3.2.6 of RFC 7230. */
  predicate IsTokenChar(c: char) {
    || ('a' <= c <= 'z') || ('A' <= c <= 'Z') || ('0' <= c <= '9')
    || c in "!#$%&'*+-.^_`|~"
  }

  predicate IsToken(s: string) {
    |s| > 0 && forall i :: 0 <= i < |s| ==> IsTokenChar(s[i])
  }

  /** The standard method spelled exactly (case-sensitively) by `s`, if any. */
  function StandardMethod(s: string): Option<Method> {
    if s == "OPTIONS" then Some(OPTIONS)
    else if s == "GET" then Some(GET)
    else if s == "POST" then Some(POST)
    else if s == "PUT" then Some(PUT)
    else if s == "DELETE" then Some(DELETE)
    else if s == "HEAD" then Some(HEAD)
    else if s == "TRACE" then Some(TRACE)
    else if s == "CONNECT" then Some(CONNECT)
    else if s == "PATCH" then Some(PATCH)
    else None
  }

  /** A method value the library can hold: extensions are non-standard tokens. */
  predicate WellFormed(m: Method) {
    m.Extension? ==> IsToken(m.name) && StandardMethod(m.name).None?
  }

  /**
   * `Method::from_bytes`: the standard names map to their variants, any
   * other non-empty token is an extension method, anything else is invalid.
   */
  function MethodFromBytes(s: string): (r: Option<Method>)
    ensures r.Some? ==> WellFormed(r.value) && AsStr(r.value) == s
    ensures r.None? <==> !IsToken(s)
  {
    match StandardMethod(s)
    case Some(m) => Some(m)
    case None => if IsToken(s) then Some(Extension(s)) else None
  }

  /** Parsing the text of any well-formed method gives that method back. */
  lemma MethodRoundTrip(m: Method)
    requires WellFormed(m)
    ensures MethodFromBytes(AsStr(m)) == Some(m)
  {
  }

  function LowerChar(c: char): char {
    if 'A' <= c <= 'Z' then (c as int - 'A' as int + 'a' as int) as char else c
  }

  /** ASCII lower-casing, character by character. */
  function Lower(s: string): (r: string)
    ensures |r| == |s| && forall i :: 0 <= i < |s| ==> r[i] == LowerChar(s[i])
  {
    seq(|s|, i requires 0 <= i < |s| => LowerChar(s[i]))
  }

  /** A header name as the library stores it: a lower-case token. */
  type HeaderName = string

  /**
   * `HeaderName::try_from(&str)`: a non-empty token, stored lower-cased;
   * anything else is rejected.
   */
  function ParseHeaderName(s: string): (r: Option<HeaderName>)
    ensures r.Some? <==> IsToken(s)
    ensures r.Some? ==> r.value == Lower(s) && Lower(r.value) == r.value && IsToken(r.value)
  {
    if IsToken(s) then
      var n := Lower(s);
      assert Lower(n) == n;
      Some(n)
    else None
  }

  /** `HeaderName == &str`: equality up to ASCII case. */
  predicate NameMatches(name: HeaderName, s: string) {
    Lower(name) == Lower(s)
  }

  /** A header value as raw bytes. */
  type HeaderValue = string

  /** `HeaderValue::from_str` accepts tab and every byte from space up, except DEL. */
  predicate IsValidHeaderValue(v: string) {
    forall i :: 0 <= i < |v| ==> v[i] == '\t' || (' ' <= v[i] && v[i] as int != 0x7F)
  }

  predicate IsVisibleAscii(v: string) {
    forall i :: 0 <= i < |v| ==> v[i] == '\t' || (' ' <= v[i] && v[i] as int < 0x7F)
  }

  /** `HeaderValue::to_str().unwrap_or_default()`: the text, or "" if not visible ASCII. */
  function ToStr(v: HeaderValue): (r: string)
    ensures IsVisibleAscii(v) ==> r == v
    ensures !IsVisibleAscii(v) ==> r == ""
  {
    if IsVisibleAscii(v) then v else ""
  }

  // Header names used by the CORS middleware, as the library spells them.
  const ORIGIN: HeaderName := "origin"
  const ACCESS_CONTROL_REQUEST_METHOD: HeaderName := "access-control-request-method"
  const ACCESS_CONTROL_REQUEST_HEADERS: HeaderName := "access-control-request-headers"
  const ACCESS_CONTROL_ALLOW_ORIGIN: HeaderName := "access-control-allow-origin"
  const ACCESS_CONTROL_ALLOW_CREDENTIALS: HeaderName := "access-control-allow-credentials"
  const ACCESS_CONTROL_ALLOW_METHODS: HeaderName := "access-control-allow-methods"
  const ACCESS_CONTROL_ALLOW_HEADERS: HeaderName := "access-control-allow-headers"
  const ACCESS_CONTROL_EXPOSE_HEADERS: HeaderName := "access-control-expose-headers"
}
