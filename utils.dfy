/**
 * Shared helpers of src/internal/utils.ts: the plain-text error response
 * `abort` and the routing-header check `validate`.
 */
module Utils {
  import opened Wire

  type byte = x: int | 0 <= x < 256

  /** The status texts `abort` knows (STATUS_CODES). */
  function StatusText(code: int): Option<string> {
    match code
    case 400 => Some("Bad Request")
    case 401 => Some("Unauthorized")
    case 403 => Some("Forbidden")
    case 404 => Some("Not Found")
    case 405 => Some("Method Not Allowed")
    case 411 => Some("Length Required")
    case 413 => Some("Payload Too Large")
    case 422 => Some("Unprocessable Entity")
    case 426 => Some("Upgrade Required")
    case _ => None
  }

  // ---------------------------------------------------------------- UTF-8

  /** The UTF-8 encoding of one Unicode scalar value (RFC 3629 section 3). */
  function EncodeChar(c: char): (r: seq<byte>)
    ensures 1 <= |r| <= 4
    ensures (|r| == 1) == (c as int < 0x80)
  {
    var n := c as int;
    if n < 0x80 then [n]
    else if n < 0x800 then [0xC0 + n / 0x40, 0x80 + n % 0x40]
    else if n < 0x10000 then [0xE0 + n / 0x1000, 0x80 + (n / 0x40) % 0x40, 0x80 + n % 0x40]
    else [0xF0 + n / 0x40000, 0x80 + (n / 0x1000) % 0x40, 0x80 + (n / 0x40) % 0x40, 0x80 + n % 0x40]
  }

  /** Reads back the scalar value from the bytes of one encoded character. */
  function DecodeChar(b: seq<byte>): int {
    var x := seq(|b|, i requires 0 <= i < |b| => b[i] as int);
    if |x| == 1 then x[0]
    else if |x| == 2 then (x[0] - 0xC0) * 0x40 + (x[1] - 0x80)
    else if |x| == 3 then ((x[0] - 0xE0) * 0x40 + (x[1] - 0x80)) * 0x40 + (x[2] - 0x80)
    else if |x| == 4 then (((x[0] - 0xF0) * 0x40 + (x[1] - 0x80)) * 0x40 + (x[2] - 0x80)) * 0x40 + (x[3] - 0x80)
    else -1
  }

  /** Each encoded character decodes back to itself. */
  lemma EncodeCharRoundTrip(c: char)
    ensures DecodeChar(EncodeChar(c)) == c as int
  {
    var n := c as int;
    if n < 0x80 {
    } else if n < 0x800 {
      assert (n / 0x40) * 0x40 + n % 0x40 == n;
    } else if n < 0x10000 {
      var q := n / 0x40;
      assert q * 0x40 + n % 0x40 == n;
      assert (q / 0x40) * 0x40 + q % 0x40 == q;
      assert n / 0x1000 == q / 0x40;
    } else {
      var q := n / 0x40;
      var p := q / 0x40;
      assert q * 0x40 + n % 0x40 == n;
      assert p * 0x40 + q % 0x40 == q;
      assert (p / 0x40) * 0x40 + p % 0x40 == p;
      assert n / 0x1000 == p;
      assert n / 0x40000 == p / 0x40;
    }
  }

  /** `TextEncoder.encode`: the UTF-8 bytes of a string. */
  function Utf8(s: string): seq<byte> {
    if s == [] then [] else EncodeChar(s[0]) + Utf8(s[1..])
  }

  /** Every character takes between one and four bytes. */
  lemma {:induction false} Utf8LengthBounds(s: string)
    ensures |s| <= |Utf8(s)| <= 4 * |s|
  {
    if s != [] {
      Utf8LengthBounds(s[1..]);
    }
  }

  /** An ASCII-only string takes exactly one byte per character. */
  lemma {:induction false} Utf8Ascii(s: string)
    requires forall i :: 0 <= i < |s| ==> s[i] as int < 0x80
    ensures |Utf8(s)| == |s|
    ensures forall i :: 0 <= i < |s| ==> Utf8(s)[i] == s[i] as int
  {
    if s != [] {
      Utf8Ascii(s[1..]);
    }
  }

  // ---------------------------------------------------------- decimals

  function DigitChar(d: nat): char
    requires d < 10
  {
    "0123456789"[d]
  }

  /** `String(n)` for a non-negative integer: its decimal digits. */
  function DecimalString(n: nat): (r: string)
    ensures |r| >= 1
    ensures forall i :: 0 <= i < |r| ==> '0' <= r[i] <= '9'
    ensures |r| > 1 ==> r[0] != '0'
  {
    if n < 10 then [DigitChar(n)] else DecimalString(n / 10) + [DigitChar(n % 10)]
  }

  /** Reads a string of decimal digits back as a number. */
  function ParseDecimal(s: string): nat
    requires forall i :: 0 <= i < |s| ==> '0' <= s[i] <= '9'
  {
    if s == [] then 0 else 10 * ParseDecimal(s[..|s| - 1]) + (s[|s| - 1] as int - '0' as int)
  }

  /** `String(n)` is read back as `n`. */
  lemma {:induction false} DecimalRoundTrip(n: nat)
    ensures ParseDecimal(DecimalString(n)) == n
  {
    var r := DecimalString(n);
    if n >= 10 {
      DecimalRoundTrip(n / 10);
      assert r[..|r| - 1] == DecimalString(n / 10);
    }
  }

  // ------------------------------------------------------------- abort

  /**
   * `abort(code, message)`: a plain-text error response. An absent or empty
   * message falls back to the code's status text, and Content-Length is the
   * UTF-8 byte length of the body.
   */
  function Abort(code: int, message: Option<string>): (r: Response)
    ensures r.status == code
    ensures r.statusText == StatusText(code).GetOr("")
    ensures Truthy(message) ==> r.body == message
    ensures !Truthy(message) ==> r.body == StatusText(code)
    ensures r.headers.Keys == {"Connection", "Content-Type", "Content-Length"}
    ensures r.headers["Connection"] == "close" && r.headers["Content-Type"] == "text/plain"
    ensures r.headers["Content-Length"] == DecimalString(|Utf8(r.body.GetOr(""))|)
  {
    var body := Or(message, StatusText(code));
    Response(code, StatusText(code).GetOr(""), body,
             map["Connection" := "close", "Content-Type" := "text/plain",
                 "Content-Length" := DecimalString(|Utf8(body.GetOr(""))|)])
  }

  /**
   * The declared Content-Length of an `abort` response reads back as its
   * body's byte count, which lies between one and four bytes per character.
   */
  lemma AbortContentLength(code: int, message: Option<string>)
    ensures var r := Abort(code, message);
      ParseDecimal(r.headers["Content-Length"]) == |Utf8(r.body.GetOr(""))|
    ensures var r := Abort(code, message);
      |r.body.GetOr("")| <= ParseDecimal(r.headers["Content-Length"]) <= 4 * |r.body.GetOr("")|
  {
    var body := Abort(code, message).body.GetOr("");
    DecimalRoundTrip(|Utf8(body)|);
    Utf8LengthBounds(body);
  }

  /** For a non-empty ASCII message, Content-Length is the message's length. */
  lemma AbortAsciiLength(code: int, message: string)
    requires message != ""
    requires forall i :: 0 <= i < |message| ==> message[i] as int < 0x80
    ensures Abort(code, Some(message)).headers["Content-Length"] == DecimalString(|message|)
  {
    assert |Utf8(message)| == |message| by {
      Utf8Ascii(message);
    }
    assert Abort(code, Some(message)).body.GetOr("") == message;
  }

  /**
   * The `catch` of a route that turns a thrown `Error` into
   * `abort(400, err.stack)`: a 400 whose body is the error's stack line.
   */
  function Thrown(message: string): (res: Response)
    ensures res.status == 400 && res.body == Some(ErrorStack(message))
  {
    Abort(400, Some(ErrorStack(message)))
  }

  /**
   * The response a `fetch` settles on after calling the `receive` hook: what
   * the hook returned, or, when it threw an `Error`, a 400 whose body is the
   * error's stack text.
   */
  function ReceiveResult(received: Result<Response>): (res: Response)
    ensures received.Ok? ==> res == received.value
    ensures received.Err? ==> res.status == 400 && res.body == Some(ErrorStack(received.message))
  {
    match received
    case Ok(resp) => resp
    case Err(m) => Thrown(m)
  }

  // ---------------------------------------------------------- validate

  /** The routing identifiers `validate` returns. */
  datatype Routing = Routing(gid: string, rid: string, oid: string, tid: Option<string>)

  /**
   * `validate(req, replicaid)`: OBJECTID must be present (and equal a non-empty
   * `replicaid`), GROUPID must be present, and the request id is CLIENTID when
   * non-empty, else NEIGHBORID; TARGETID is passed through.
   */
  function Validate(h: Headers, replicaid: Option<string>): (r: Result<Routing>)
    ensures ObjectId !in h ==> r == Err("Missing: Replica ID")
    ensures ObjectId in h && Truthy(replicaid) && h[ObjectId] != replicaid.value ==>
              r == Err("Mismatch: Replica ID")
    ensures ObjectId in h && (!Truthy(replicaid) || h[ObjectId] == replicaid.value) && GroupId !in h ==>
              r == Err("Missing: Group ID")
    ensures ObjectId in h && (!Truthy(replicaid) || h[ObjectId] == replicaid.value) && GroupId in h
            && !((ClientId in h && h[ClientId] != "") || NeighborId in h) ==>
              r == Err("Missing: Request ID")
    ensures r.Ok? <==>
              && ObjectId in h && (!Truthy(replicaid) || h[ObjectId] == replicaid.value)
              && GroupId in h
              && ((ClientId in h && h[ClientId] != "") || NeighborId in h)
    ensures r.Err? ==> r.message in {"Missing: Replica ID", "Mismatch: Replica ID",
                                     "Missing: Group ID", "Missing: Request ID"}
    ensures r.Ok? ==> && r.value.oid == h[ObjectId] && r.value.gid == h[GroupId]
                      && r.value.rid == (if ClientId in h && h[ClientId] != "" then h[ClientId] else h[NeighborId])
                      && r.value.tid == Get(h, TargetId)
  {
    var oid := Get(h, ObjectId);
    if oid.None? then Err("Missing: Replica ID")
    else if Truthy(replicaid) && oid.value != replicaid.value then Err("Mismatch: Replica ID")
    else
      var gid := Get(h, GroupId);
      if gid.None? then Err("Missing: Group ID")
      else
        var rid := Or(Get(h, ClientId), Get(h, NeighborId));
        if rid.None? then Err("Missing: Request ID")
        else Ok(Routing(gid.value, rid.value, oid.value, Get(h, TargetId)))
  }
}
