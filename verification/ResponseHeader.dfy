/** The response printer: the text it leaves in the buffer, and how that reads back. */
module ResponseHeader {
  import opened Chars
  import opened ParserTypes
  import opened ParserRun
  import opened DynamicStrings
  import RT = ResponseRoundTrip

  type int32 = x: int | -0x8000_0000 <= x < 0x8000_0000
  type size_t = x: int | 0 <= x < 0x1_0000_0000_0000_0000

  /** What `%d` makes of an argument of type `size_t`: its low 32 bits, as a signed number. */
  function LowInt(n: size_t): int32 {
    var low := n % 0x1_0000_0000;
    if low < 0x8000_0000 then low else low - 0x1_0000_0000
  }

  function IntText(n: int32): string {
    var m: int := n;
    if m < 0 then "-" + RT.Digits(-m) else RT.Digits(m)
  }

  /** The reason phrases of the status codes that have one. */
  function StatusReason(code: int): string {
    match code
    case 100 => "Continue"
    case 101 => "Switching Protocols"
    case 200 => "OK"
    case 201 => "Created"
    case 202 => "Accepted"
    case 203 => "Non-Authoritative Information"
    case 204 => "No Content"
    case 205 => "Reset Content"
    case 206 => "Partial Content"
    case 300 => "Multiple Choices"
    case 301 => "Moved Permanently"
    case 302 => "Found"
    case 303 => "See Other"
    case 304 => "Not Modified"
    case 305 => "Use Proxy"
    case 307 => "Temporary Redirect"
    case _ => if 400 <= code < 500 then ClientReason(code) else ServerReason(code)
  }

  function ClientReason(code: int): string {
    match code
    case 400 => "Bad Request"
    case 401 => "Unauthorized"
    case 402 => "Payment Required"
    case 403 => "Forbidden"
    case 404 => "Not Found"
    case 405 => "Method Not Allowed"
    case 406 => "Not Acceptable"
    case 407 => "Proxy Authentication Required"
    case 408 => "Request Time-out"
    case 409 => "Conflict"
    case 410 => "Gone"
    case 411 => "Length Required"
    case 412 => "Precondition Failed"
    case 413 => "Request Entity Too Large"
    case 414 => "Request-URI Too Large"
    case 415 => "Unsupported Media Type"
    case 416 => "Requested range not satisfiable"
    case 417 => "Expectation Failed"
    case _ => ""
  }

  function ServerReason(code: int): string {
    match code
    case 500 => "Internal Server Error"
    case 501 => "Not Implemented"
    case 502 => "Bad Gateway"
    case 503 => "Service Unavailable"
    case 504 => "Gateway Time-out"
    case 505 => "HTTP Version not supported"
    case _ => ""
  }

  predicate IsPhrase(s: string) {
    |s| <= 31 && CR !in s && LF !in s
  }

  /** Two phrases put one behind the other, in proofs about long ones. */
  lemma Joined(s: string, a: string, b: string)
    requires s == a + b && |s| <= 31 && IsPhrase(a) && IsPhrase(b)
    ensures IsPhrase(s)
  {
  }

  lemma SmallPhrase(code: int)
    requires code < 203
    ensures IsPhrase(StatusReason(code))
  {
  }

  lemma ProvenancePhrase(code: int)
    requires code == 203
    ensures IsPhrase(StatusReason(code))
  {
    var a, b := "Non-Authoritative ", "Information";
    assert StatusReason(code) == a + b;
    Joined(StatusReason(code), a, b);
  }

  lemma SuccessPhrase(code: int)
    requires 204 <= code < 300
    ensures IsPhrase(StatusReason(code))
  {
  }

  lemma RedirectionPhrase(code: int)
    requires 300 <= code < 303
    ensures IsPhrase(StatusReason(code))
  {
  }

  lemma OtherRedirectionPhrase(code: int)
    requires 303 <= code < 400
    ensures IsPhrase(StatusReason(code))
  {
  }

  lemma RequestPhrase(code: int)
    requires code < 403
    ensures IsPhrase(ClientReason(code))
  {
  }

  lemma ResourcePhrase(code: int)
    requires 403 <= code < 407
    ensures IsPhrase(ClientReason(code))
  {
  }

  lemma ProxyPhrase(code: int)
    requires code == 407
    ensures IsPhrase(ClientReason(code))
  {
    var a, b := "Proxy Authentication ", "Required";
    assert ClientReason(code) == a + b;
    Joined(ClientReason(code), a, b);
  }

  lemma TimeoutPhrase(code: int)
    requires 408 <= code < 411
    ensures IsPhrase(ClientReason(code))
  {
  }

  lemma ConditionPhrase(code: int)
    requires 411 <= code < 413
    ensures IsPhrase(ClientReason(code))
  {
  }

  lemma LargePhrase(code: int)
    requires 413 <= code < 415
    ensures IsPhrase(ClientReason(code))
  {
  }

  lemma MediaPhrase(code: int)
    requires 415 == code
    ensures IsPhrase(ClientReason(code))
  {
  }

  lemma RangePhrase(code: int)
    requires 416 == code
    ensures IsPhrase(ClientReason(code))
  {
    var a, b := "Requested range ", "not satisfiable";
    assert ClientReason(code) == a + b;
    Joined(ClientReason(code), a, b);
  }

  lemma ExpectationPhrase(code: int)
    requires 417 <= code
    ensures IsPhrase(ClientReason(code))
  {
  }

  lemma ServerPhrase(code: int)
    requires code < 503
    ensures IsPhrase(ServerReason(code))
  {
  }

  lemma OtherServerPhrase(code: int)
    requires 503 <= code < 505
    ensures IsPhrase(ServerReason(code))
  {
  }

  lemma VersionPhrase(code: int)
    requires 505 <= code
    ensures IsPhrase(ServerReason(code))
  {
  }

  lemma ReasonPhrase(code: int)
    ensures IsPhrase(StatusReason(code))
  {
    hide IsPhrase, StatusReason, ClientReason, ServerReason;
    ReasonSplits(code);
    if code < 203 {
      SmallPhrase(code);
    } else if code == 203 {
      ProvenancePhrase(code);
    } else if code < 300 {
      SuccessPhrase(code);
    } else if code < 303 {
      RedirectionPhrase(code);
    } else if code < 400 {
      OtherRedirectionPhrase(code);
    } else if code < 403 {
      RequestPhrase(code);
    } else if code < 407 {
      ResourcePhrase(code);
    } else if code == 407 {
      ProxyPhrase(code);
    } else if code < 411 {
      TimeoutPhrase(code);
    } else if code < 413 {
      ConditionPhrase(code);
    } else if code < 415 {
      LargePhrase(code);
    } else if code < 416 {
      MediaPhrase(code);
    } else if code < 417 {
      RangePhrase(code);
    } else if code < 500 {
      ExpectationPhrase(code);
    } else if code < 503 {
      ServerPhrase(code);
    } else if code < 505 {
      OtherServerPhrase(code);
    } else {
      VersionPhrase(code);
    }
  }

  lemma ReasonSplits(code: int)
    ensures 400 <= code < 500 ==> StatusReason(code) == ClientReason(code)
    ensures 500 <= code ==> StatusReason(code) == ServerReason(code)
  {
    hide ClientReason, ServerReason;
  }

  /** The text of a header as it is printed. */
  function PrintedHeader(code: int32, length: size_t, keepAlive: bool): string {
    PrintedStatus(code) + CRLF + PrintedLength(length) + CRLF + RT.ConnectionText(keepAlive) + CRLF + CRLF
  }

  function PrintedStatus(code: int32): string {
    "HTTP/1.1 " + IntText(code) + " " + StatusReason(code)
  }

  function PrintedLength(length: size_t): string {
    "Content-Length: " + IntText(LowInt(length))
  }

  function Pow10(k: nat): nat {
    if k == 0 then 1 else 10 * Pow10(k - 1)
  }

  lemma {:induction false} DigitsLength(n: nat, k: nat)
    requires k > 0 && n < Pow10(k)
    ensures 0 < |RT.Digits(n)| <= k
  {
    if n >= 10 { DigitsLength(n / 10, k - 1); }
  }

  lemma IntTextLength(n: int32)
    ensures 0 < |IntText(n)| <= 11
  {
    var m: int := n;
    assert Pow10(10) == 10_000_000_000;
    DigitsLength(if m < 0 then -m else m, 10);
  }

  lemma LineLengths(code: int32, length: size_t, keepAlive: bool)
    ensures 0 < |PrintedStatus(code)| <= 52 && 0 < |PrintedLength(length)| <= 27 && 0 < |RT.ConnectionText(keepAlive)| <= 22
  {
    hide IntText, StatusReason;
    IntTextLength(code);
    IntTextLength(LowInt(length));
    ReasonPhrase(code);
  }

  /** A text that keeps the contents within 512 bytes can be printed into a buffer of any capacity. */
  lemma ShortReturns(capacity: nat, total: nat)
    requires 0 < total <= 512
    ensures Returns(capacity, total)
  {
  }

  class HttpResponseHeader {
    var code: int32
    var contentLength: size_t
    var keepAlive: bool
    var sent: bool
    const buffer: DynamicString

    constructor (buffer: DynamicString)
      ensures this.buffer == buffer && !sent
    {
      this.buffer, sent, code, contentLength, keepAlive := buffer, false, 0, 0, false;
    }

    method Append(text: string)
      requires buffer.Valid() && text != "" && buffer.end + |text| <= 512
      modifies buffer, buffer.buffer
      ensures buffer.Valid() && buffer.Contents() == old(buffer.Contents()) + text && buffer.end == old(buffer.end) + |text|
      ensures buffer.buffer == old(buffer.buffer) || fresh(buffer.buffer)
    {
      ShortReturns(buffer.buffer.Length, buffer.end + |text|);
      var _, _ := buffer.Printf(text);
    }

    method AppendLine(text: string)
      requires buffer.Valid() && text != "" && buffer.end + |text| <= 510
      modifies buffer, buffer.buffer
      ensures buffer.Valid() && buffer.Contents() == old(buffer.Contents()) + text + CRLF && buffer.end == old(buffer.end) + |text| + 2
      ensures buffer.buffer == old(buffer.buffer) || fresh(buffer.buffer)
    {
      hide DynamicString.Contents;
      Append(text);
      Append(CRLF);
    }

    /** Prints the header. It returns from a buffer of any capacity, and leaves nothing else in the buffer. */
    method Prepare(code: int32, length: size_t, keepAlive: bool)
      requires buffer.Valid()
      modifies this, buffer, buffer.buffer
      ensures this.code == code && contentLength == length && this.keepAlive == keepAlive && sent == old(sent)
      ensures buffer.Valid() && buffer.Contents() == PrintedHeader(code, length, keepAlive)
      ensures buffer.buffer == old(buffer.buffer) || fresh(buffer.buffer)
    {
      hide PrintedStatus, PrintedLength, RT.ConnectionText, DynamicString.Contents;
      this.code, contentLength, this.keepAlive := code, length, keepAlive;
      LineLengths(code, length, keepAlive);
      buffer.Clear();
      AppendLine(PrintedStatus(code));
      AppendLine(PrintedLength(length));
      AppendLine(RT.ConnectionText(keepAlive));
      Append(CRLF);
    }
  }

  /** The printed length is the length if and only if it is below 2^31: the format takes an `int`. */
  lemma PrintedLengthExact(length: size_t)
    ensures PrintedLength(length) == RT.LengthText(length) <==> length < 0x8000_0000
  {
    hide RT.Digits;
    var m: int, n: nat := LowInt(length), length;
    var name := "Content-Length: ";
    if n >= 0x8000_0000 && PrintedLength(length) == RT.LengthText(n) {
      assert IntText(LowInt(length)) == PrintedLength(length)[|name|..];
      assert RT.Digits(n) == RT.LengthText(n)[|name|..];
      RT.DigitsValue(n);
      if m >= 0 { RT.DigitsValue(m); }
    }
  }

  /** Printing a header and parsing it: for every status code of three digits and every length below 2^31,
      the parser gets the code, the version, the reason and the length that were printed, and stops
      exactly where the body starts. */
  lemma PrintParse(c: Conf, code: int32, length: size_t, keepAlive: bool)
    requires c.halt.Running? && c.open.None? && c.p.state == Beginning(PreStartRes)
    requires c.p.msg.kind.Response? && c.p.msg.verb != CONNECT && !c.p.msg.bodiless
    requires 100 <= code <= 999 && length < 0x8000_0000
    ensures var text := PrintedHeader(code, length, keepAlive);
            var d := Run(c, text);
            && d.halt.Running? && d.open.None? && d.count == c.count + |text|
            && d.p.msg.status == code && d.p.msg.major == 1 && d.p.msg.minor == 1 && d.p.contentLength == length
            && d.p.state == (if length == 0 then Beginning(PreStartRes) else InBody(BodyIdentity))
            && d.trace == PushAll(c.trace,
                 [MessageBegin, Data(Reason, StatusReason(code)), Data(Field, "Content-Length"), Data(Value, RT.Digits(length)),
                  Data(Field, "Connection"), Data(Value, if keepAlive then "Keep-Alive" else "Close"), HeadersComplete]
                 + (if length == 0 then [MessageComplete] else []))
  {
    hide Run, PushAll, PrintedHeader, StatusReason, RT.HeaderText, RT.Digits;
    PrintedIsHeader(code, length, keepAlive);
    ReasonIsClean(code);
    RT.HeaderRoundTrip(c, code, StatusReason(code), length, keepAlive);
  }

  lemma ReasonIsClean(code: int)
    ensures CR !in StatusReason(code) && LF !in StatusReason(code)
  {
    hide StatusReason;
    ReasonPhrase(code);
  }

  lemma PrintedIsHeader(code: int32, length: size_t, keepAlive: bool)
    requires 0 <= code && length < 0x8000_0000
    ensures PrintedHeader(code, length, keepAlive) == RT.HeaderText(code, StatusReason(code), length, keepAlive)
  {
    hide RT.Digits, StatusReason, RT.ConnectionText;
  }
}
