/**
 * The server-side opening-handshake pre-checks that `connect` runs before
 * upgrading a request to a WebSocket (RFC 6455 section 4.2.1), including the
 * shape of the `Sec-WebSocket-Key`: the base64 form of a 16-byte nonce
 * (RFC 6455 section 4.1, RFC 4648 section 4).
 */
module Handshake {
  import opened Wire
  import opened Utils

  // ------------------------------------------------------------ trim

  /** The characters `String.prototype.trim` strips: WhiteSpace and LineTerminator. */
  predicate IsSpace(c: char) {
    || c == '\t' || c == '\n' || c == '\U{000B}' || c == '\U{000C}' || c == '\r'
    || c == ' ' || c == '\U{00A0}' || c == '\U{1680}'
    || ('\U{2000}' <= c <= '\U{200A}')
    || c == '\U{2028}' || c == '\U{2029}' || c == '\U{202F}' || c == '\U{205F}' || c == '\U{3000}'
    || c == '\U{FEFF}'
  }

  /** The number of leading whitespace characters. */
  function LeadingSpace(s: string): (k: nat)
    ensures k <= |s|
    ensures forall i :: 0 <= i < k ==> IsSpace(s[i])
    ensures k < |s| ==> !IsSpace(s[k])
  {
    if |s| > 0 && IsSpace(s[0]) then 1 + LeadingSpace(s[1..]) else 0
  }

  /** The length of `s` without its trailing whitespace. */
  function TrailingStart(s: string): (k: nat)
    ensures k <= |s|
    ensures forall i :: k <= i < |s| ==> IsSpace(s[i])
    ensures k > 0 ==> !IsSpace(s[k - 1])
  {
    if |s| > 0 && IsSpace(s[|s| - 1]) then TrailingStart(s[..|s| - 1]) else |s|
  }

  /** `s.trim()`: the slice of `s` between its leading and trailing whitespace. */
  function Trim(s: string): (r: string)
    ensures exists a, b :: 0 <= a <= b <= |s| && r == s[a..b]
              && (forall i :: 0 <= i < a ==> IsSpace(s[i]))
              && (forall i :: b <= i < |s| ==> IsSpace(s[i]))
    ensures r != [] ==> !IsSpace(r[0]) && !IsSpace(r[|r| - 1])
  {
    var a := LeadingSpace(s);
    var b := a + TrailingStart(s[a..]);
    assert forall i :: b <= i < |s| ==> s[i] == s[a..][i - a];
    s[a..b]
  }

  /** A string that neither starts nor ends with whitespace is its own trim. */
  lemma TrimUnspaced(s: string)
    requires s != [] ==> !IsSpace(s[0]) && !IsSpace(s[|s| - 1])
    ensures Trim(s) == s
  {
    if s != [] {
      assert LeadingSpace(s) == 0;
      assert TrailingStart(s[0..]) == |s|;
    }
  }

  /** Trimming twice is trimming once. */
  lemma TrimIdempotent(s: string)
    ensures Trim(Trim(s)) == Trim(s)
  {
    TrimUnspaced(Trim(s));
  }

  // ----------------------------------------------------------- base64

  /** `[+/0-9A-Za-z]`: a character of the base64 alphabet. */
  predicate IsBase64Char(c: char) {
    ('A' <= c <= 'Z') || ('a' <= c <= 'z') || ('0' <= c <= '9') || c == '+' || c == '/'
  }

  /** `/^[+/0-9A-Za-z]{22}==$/`: the accepted form of a Sec-WebSocket-Key. */
  predicate IsWebSocketKey(k: string) {
    |k| == 24 && (forall i :: 0 <= i < 22 ==> IsBase64Char(k[i])) && k[22] == '=' && k[23] == '='
  }

  /** The base64 digit for a 6-bit value (RFC 4648, table 1). */
  function Digit64(v: nat): (c: char)
    requires v < 64
    ensures IsBase64Char(c)
  {
    if v < 26 then ('A' as int + v) as char
    else if v < 52 then ('a' as int + v - 26) as char
    else if v < 62 then ('0' as int + v - 52) as char
    else if v == 62 then '+' else '/'
  }

  /** Base64 encoding with `=` padding (RFC 4648 section 4). */
  function Base64(b: seq<byte>): string
    decreases |b|
  {
    if |b| >= 3 then
      [Digit64(b[0] / 4), Digit64((b[0] % 4) * 16 + b[1] / 16),
       Digit64((b[1] % 16) * 4 + b[2] / 64), Digit64(b[2] % 64)] + Base64(b[3..])
    else if |b| == 2 then
      [Digit64(b[0] / 4), Digit64((b[0] % 4) * 16 + b[1] / 16), Digit64((b[1] % 16) * 4), '=']
    else if |b| == 1 then
      [Digit64(b[0] / 4), Digit64((b[0] % 4) * 16), '=', '=']
    else []
  }

  /** A full group of three bytes: four alphabet digits, then the encoding of the rest. */
  lemma Base64Group(b: seq<byte>)
    requires |b| >= 3
    ensures |Base64(b)| == 4 + |Base64(b[3..])|
    ensures forall i :: 0 <= i < 4 ==> IsBase64Char(Base64(b)[i])
    ensures forall i :: 4 <= i < |Base64(b)| ==> Base64(b)[i] == Base64(b[3..])[i - 4]
  {
  }

  /** Input whose length is one more than a multiple of three encodes to digits followed by `==`. */
  lemma {:induction false} Base64OneOver(b: seq<byte>)
    requires |b| % 3 == 1
    ensures |Base64(b)| == 4 * (|b| / 3) + 4
    ensures forall i :: 0 <= i < |Base64(b)| - 2 ==> IsBase64Char(Base64(b)[i])
    ensures Base64(b)[|Base64(b)| - 2..] == "=="
    decreases |b|
  {
    if |b| >= 3 {
      Base64OneOver(b[3..]);
      Base64Group(b);
      var e, rest := Base64(b), Base64(b[3..]);
      assert e[|e| - 2..] == rest[|rest| - 2..];
    }
  }

  /** A client's key, the base64 form of a 16-byte nonce, has the accepted form. */
  lemma NonceKeyAccepted(nonce: seq<byte>)
    requires |nonce| == 16
    ensures IsWebSocketKey(Base64(nonce))
  {
    Base64OneOver(nonce);
    var k := Base64(nonce);
    assert k[22..] == "==";
    assert k[22] == k[22..][0] && k[23] == k[22..][1];
  }

  // -------------------------------------------------------- handshake

  /**
   * The pre-checks of `connect`, in order: a non-GET method is 405, an Upgrade
   * header other than exactly "websocket" is 426, a trimmed key outside the
   * accepted form is 400, a version other than "13" is 400. `None` means the
   * request may be upgraded.
   */
  function UpgradeCheck(req: Request): (r: Option<int>)
    ensures r.None? <==>
              && req.verb == "GET"
              && Get(req.headers, Upgrade) == Some("websocket")
              && IsWebSocketKey(Trim(Get(req.headers, SecWebSocketKey).GetOr("")))
              && Get(req.headers, SecWebSocketVersion) == Some("13")
    ensures req.verb != "GET" ==> r == Some(405)
    ensures req.verb == "GET" && Get(req.headers, Upgrade) != Some("websocket") ==> r == Some(426)
    ensures r.Some? && r.value != 405 && r.value != 426 ==> r.value == 400
  {
    var h := req.headers;
    if req.verb != "GET" then Some(405)
    else if Get(h, Upgrade) != Some("websocket") then Some(426)
    else if !IsWebSocketKey(Trim(Or(Get(h, SecWebSocketKey), Some("")).value)) then Some(400)
    else if Get(h, SecWebSocketVersion) != Some("13") then Some(400)
    else None
  }

  /** A key that is missing or empty fails the key check with 400. */
  lemma MissingKeyRejected(req: Request)
    requires req.verb == "GET" && Get(req.headers, Upgrade) == Some("websocket")
    requires Get(req.headers, SecWebSocketKey).GetOr("") == ""
    ensures UpgradeCheck(req) == Some(400)
  {
    assert Trim("") == "";
  }

  /**
   * A conforming client opening handshake (RFC 6455 section 4.1: GET, Upgrade
   * "websocket", the base64 of a 16-byte nonce as key, version 13) passes.
   */
  lemma ClientHandshakeAccepted(req: Request, nonce: seq<byte>)
    requires |nonce| == 16
    requires req.verb == "GET"
    requires Get(req.headers, Upgrade) == Some("websocket")
    requires Get(req.headers, SecWebSocketKey) == Some(Base64(nonce))
    requires Get(req.headers, SecWebSocketVersion) == Some("13")
    ensures UpgradeCheck(req) == None
  {
    var k := Base64(nonce);
    NonceKeyAccepted(nonce);
    TrimUnspaced(k);
  }
}
