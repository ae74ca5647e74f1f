/** One pass through the `switch (state)` of `http_parser_execute`, as a function of the parser and
    the current byte. What the pass does to marks and callbacks is returned as data, in the order
    in which every case performs it: set a mark, deliver marked data, make other callbacks. */
module Transition {
  import opened Chars
  import opened Options
  import opened ParserTypes

  /** `Before(k)` delivers the marked bytes before the current one, `Through(k)` includes it. */
  datatype Flush = Keep | Before(kind: DataKind) | Through(kind: DataKind)

  /** Leave the byte behind, run the switch on it again, return to the caller after it, or fail on it. */
  datatype Control = Next | Again | Stop | Fail

  /** `reset` restarts the count of header bytes at the current one. */
  datatype Out = Out(p: Parser, mark: Option<DataKind>, flush: Flush, calls: seq<Event>, reset: bool, ctl: Control)

  function Go(p: Parser): Out {
    Out(p, None, Keep, [], false, Next)
  }

  function Redo(p: Parser): Out {
    Out(p, None, Keep, [], false, Again)
  }

  function Bad(p: Parser, e: Errno): Out {
    Out(p.(errno := e), None, Keep, [], false, Fail)
  }

  function Begin(p: Parser, s: State): Out {
    Redo(p.(state := s)).(calls := [MessageBegin])
  }

  function Fresh(p: Parser, s: State): Parser {
    p.(state := s, contentLength := -1, msg := Cleared(p.msg))
  }

  function As(p: Parser, s: State, m: Message): Parser {
    p.(state := s, msg := m)
  }

  function DispatchStart(p: Parser, c: char): Out
    requires p.state.Beginning?
  {
    match p.state.start
    case PreStartReqOrRes => if c == CR || c == LF then Go(p) else Begin(p, Beginning(StartReqOrRes))
    case PreStartRes => if c == CR || c == LF then Go(p) else Begin(p, Beginning(StartRes))
    case PreStartReq => if c == CR || c == LF then Go(p) else Begin(p, Beginning(StartReq))
    case StartReqOrRes =>
      if c == 'H' then Go(Fresh(p, Beginning(ResOrRespH)))
      else Redo(p.(state := Beginning(StartReq), contentLength := -1, msg := Cleared(p.msg).(kind := Request)))
    case ResOrRespH =>
      if c == 'T' then Go(As(p, StatusLine(ResHT), p.msg.(kind := Response)))
      else if c != 'E' then Bad(p, INVALID_CONSTANT)
      else Go(As(p, RequestLine(ReqMethod), p.msg.(kind := Request, verb := HEAD)).(index := 2))
    case StartRes =>
      if c == 'H' then Go(Fresh(p, StatusLine(ResH))) else Bad(Fresh(p, Beginning(StartRes)), INVALID_CONSTANT)
    case StartReq =>
      if !IsAlpha(c) then Bad(Fresh(p, Beginning(StartReq)), INVALID_METHOD)
      else
        match FirstLetter(c)
        case None => Bad(Method(p, DELETE, 1, Beginning(StartReq)), INVALID_METHOD)
        case Some(m) => Go(Method(p, m, 1, RequestLine(ReqMethod)))
  }

  function Method(p: Parser, m: Verb, index: nat, s: State): Parser {
    p.(state := s, index := index, contentLength := -1, msg := Cleared(p.msg).(verb := m))
  }

  /** The method first tried for a message that starts with the given byte. */
  function FirstLetter(c: char): Option<Verb> {
    if c == 'C' then Some(CONNECT)
    else if c == 'D' then Some(DELETE)
    else if c == 'G' then Some(GET)
    else if c == 'H' then Some(HEAD)
    else if c == 'L' then Some(LOCK)
    else if c == 'M' then Some(MKCOL)
    else if c == 'N' then Some(NOTIFY)
    else if c == 'O' then Some(OPTIONS)
    else if c == 'P' then Some(POST)
    else if c == 'R' then Some(REPORT)
    else if c == 'S' then Some(SUBSCRIBE)
    else if c == 'T' then Some(TRACE)
    else if c == 'U' then Some(UNLOCK)
    else None
  }

  /** What the next byte of the method does: a method to go on with, the end of the method, or an error. */
  datatype MethodMove = On(verb: Verb) | Whole | Wrong(errno: Errno)

  function MethodByte(verb: Verb, index: nat, c: char): MethodMove {
    var matcher := VerbString(verb);
    if c as int == 0 then Wrong(INVALID_METHOD)
    else if c == ' ' && index == |matcher| then Whole
    else if index < |matcher| && c == matcher[index] then On(verb)
    else if verb == CONNECT then
      if index == 1 && c == 'H' then On(CHECKOUT)
      else if index == 2 && c == 'P' then On(COPY)
      else Wrong(UNKNOWN)
    else if verb == MKCOL then
      if index == 1 && c == 'O' then On(MOVE)
      else if index == 1 && c == 'E' then On(MERGE)
      else if index == 1 && c == '-' then On(MSEARCH)
      else if index == 2 && c == 'A' then On(MKACTIVITY)
      else Wrong(UNKNOWN)
    else if index == 1 && verb == POST then
      if c == 'R' then On(PROPFIND)
      else if c == 'U' then On(PUT)
      else if c == 'A' then On(PATCH)
      else Wrong(UNKNOWN)
    else if index == 2 && verb == UNLOCK && c == 'S' then On(UNSUBSCRIBE)
    else if index == 4 && verb == PROPFIND && c == 'P' then On(PROPPATCH)
    else Wrong(INVALID_METHOD)
  }

  function DispatchMethod(p: Parser, c: char): Out {
    match MethodByte(p.msg.verb, p.index, c)
    case On(m) => Go(p.(index := p.index + 1, msg := p.msg.(verb := m)))
    case Whole => Go(p.(index := p.index + 1, state := RequestLine(ReqSpacesBeforeUrl)))
    case Wrong(e) => Bad(p, e)
  }

  function DispatchStatus(p: Parser, c: char): Out
    requires p.state.StatusLine?
  {
    match p.state.status
    case ResH => Go(p.(state := StatusLine(ResHT)))
    case ResHT => Go(p.(state := StatusLine(ResHTT)))
    case ResHTT => Go(p.(state := StatusLine(ResHTTP)))
    case ResHTTP => Go(p.(state := StatusLine(ResFirstHttpMajor)))
    case ResFirstHttpMajor => FirstMajor(p, c, StatusLine(ResHttpMajor))
    case ResHttpMajor => MoreMajor(p, c, StatusLine(ResFirstHttpMinor))
    case ResFirstHttpMinor => FirstMinor(p, c, StatusLine(ResHttpMinor))
    case ResHttpMinor => if c == ' ' then Go(p.(state := StatusLine(ResFirstStatusCode))) else MoreMinor(p, c)
    case ResFirstStatusCode =>
      if IsNum(c) then Go(As(p, StatusLine(ResStatusCode), p.msg.(status := DigitVal(c))))
      else if c == ' ' then Go(p)
      else Bad(p, INVALID_STATUS)
    case ResStatusCode =>
      if IsNum(c) then
        var m := p.msg.(status := p.msg.status * 10 + DigitVal(c));
        if m.status > 999 then Bad(p.(msg := m), INVALID_STATUS) else Go(p.(msg := m))
      else if c == ' ' then Go(p.(state := StatusLine(ResStatus)))
      else if c == CR then Go(p.(state := StatusLine(ResLineAlmostDone)))
      else if c == LF then Go(p.(state := InField(HeaderFieldStart)))
      else Bad(p, INVALID_STATUS)
    case ResStatus =>
      if c == CR then Go(p.(state := StatusLine(ResLineAlmostDone))).(mark := Some(Reason), flush := Before(Reason))
      else if c == LF then Go(p.(state := InField(HeaderFieldStart))).(mark := Some(Reason), flush := Before(Reason))
      else Go(p).(mark := Some(Reason))
    case ResLineAlmostDone => Go(p.(state := InField(HeaderFieldStart)))
  }

  function FirstMajor(p: Parser, c: char, s: State): Out {
    if IsNum(c) then Go(As(p, s, p.msg.(major := DigitVal(c)))) else Bad(p, INVALID_VERSION)
  }

  function MoreMajor(p: Parser, c: char, s: State): Out {
    if c == '.' then Go(p.(state := s))
    else if !IsNum(c) then Bad(p, INVALID_VERSION)
    else
      var m := p.msg.(major := p.msg.major * 10 + DigitVal(c));
      if m.major > 999 then Bad(p.(msg := m), INVALID_VERSION) else Go(p.(msg := m))
  }

  function FirstMinor(p: Parser, c: char, s: State): Out {
    if IsNum(c) then Go(As(p, s, p.msg.(minor := DigitVal(c)))) else Bad(p, INVALID_VERSION)
  }

  function MoreMinor(p: Parser, c: char): Out {
    if !IsNum(c) then Bad(p, INVALID_VERSION)
    else
      var m := p.msg.(minor := p.msg.minor * 10 + DigitVal(c));
      if m.minor > 999 then Bad(p.(msg := m), INVALID_VERSION) else Go(p.(msg := m))
  }

  /** What the next byte of the URL does: go on in a state, the same after looking at the byte again,
      the end of the URL at a space, at CR or at LF, or an error. */
  datatype UrlMove = To(step: UrlStep) | Recheck(step: UrlStep) | AtSpace | AtCr | AtLf | Amiss(errno: Errno)

  /** What ends a path, query or fragment: a space, or a line end after a version-less request line. */
  function UrlTail(c: char, e: Errno): UrlMove {
    if c == ' ' then AtSpace
    else if c == CR then AtCr
    else if c == LF then AtLf
    else Amiss(e)
  }

  function HostTail(c: char, e: Errno): UrlMove {
    if c == '/' then To(ReqPath)
    else if c == ' ' then AtSpace
    else if c == '?' then To(ReqQueryStringStart)
    else Amiss(e)
  }

  function UrlByte(s: UrlStep, c: char): UrlMove {
    match s
    case ReqSchema =>
      if IsAlpha(c) then To(s)
      else if c == ':' then To(ReqSchemaSlash)
      else Amiss(INVALID_URL)
    case ReqSchemaSlash => To(ReqSchemaSlashSlash)
    case ReqSchemaSlashSlash => To(ReqHostStart)
    case ReqHostStart =>
      if c == '[' then To(ReqHostIpv6)
      else if IsAlphaNum(c) then To(ReqHost)
      else Amiss(INVALID_HOST)
    case ReqHost => if IsHostChar(c) then To(s) else Recheck(ReqHostDone)
    case ReqHostIpv6 =>
      if IsHex(c) || c == ':' then To(s)
      else if c == ']' then To(ReqHostDone)
      else Amiss(INVALID_HOST)
    case ReqHostDone => if c == ':' then To(ReqPort) else HostTail(c, INVALID_HOST)
    case ReqPort => if IsNum(c) then To(s) else HostTail(c, INVALID_PORT)
    case ReqPath =>
      if IsUrlChar(c) then To(s)
      else if c == '?' then To(ReqQueryStringStart)
      else if c == '#' then To(ReqFragmentStart)
      else UrlTail(c, INVALID_PATH)
    case ReqQueryStringStart =>
      if IsUrlChar(c) then To(ReqQueryString)
      else if c == '?' then To(s)
      else if c == '#' then To(ReqFragmentStart)
      else UrlTail(c, INVALID_QUERY_STRING)
    case ReqQueryString =>
      if IsUrlChar(c) || c == '?' then To(s)
      else if c == '#' then To(ReqFragmentStart)
      else UrlTail(c, INVALID_QUERY_STRING)
    case ReqFragmentStart =>
      if IsUrlChar(c) || c == '?' then To(ReqFragment)
      else if c == '#' then To(s)
      else UrlTail(c, INVALID_FRAGMENT)
    case ReqFragment =>
      if IsUrlChar(c) || c == '?' || c == '#' then To(s)
      else UrlTail(c, INVALID_FRAGMENT)
  }

  function Versionless(p: Parser): Parser {
    As(p, AtEnd(HeadersAlmostDone), p.msg.(major := 0, minor := 9))
  }

  function DispatchUrl(p: Parser, c: char): Out
    requires p.state.InUrl?
  {
    match UrlByte(p.state.url, c)
    case To(s) => Go(p.(state := InUrl(s)))
    case Recheck(s) => Redo(p.(state := InUrl(s)))
    case AtSpace => Go(p.(state := RequestLine(ReqHttpStart))).(flush := Before(Url))
    case AtCr => Go(Versionless(p)).(flush := Before(Url))
    case AtLf => Redo(Versionless(p)).(flush := Before(Url))
    case Amiss(e) => Bad(p, e)
  }

  function DispatchRequest(p: Parser, c: char): Out
    requires p.state.RequestLine?
  {
    match p.state.request
    case ReqMethod => DispatchMethod(p, c)
    case ReqSpacesBeforeUrl =>
      if c == ' ' then Go(p)
      else if p.msg.verb == CONNECT then Redo(p.(state := InUrl(ReqHostStart))).(mark := Some(Url))
      else if c == '/' || c == '*' then Go(p.(state := InUrl(ReqPath))).(mark := Some(Url))
      else if IsAlpha(c) then Go(p.(state := InUrl(ReqSchema))).(mark := Some(Url))
      else Bad(p, INVALID_URL)
    case ReqHttpStart =>
      if c == 'H' then Go(p.(state := RequestLine(ReqHttpH)))
      else if c == ' ' then Go(p)
      else Bad(p, INVALID_CONSTANT)
    case ReqHttpH => Go(p.(state := RequestLine(ReqHttpHT)))
    case ReqHttpHT => Go(p.(state := RequestLine(ReqHttpHTT)))
    case ReqHttpHTT => Go(p.(state := RequestLine(ReqHttpHTTP)))
    case ReqHttpHTTP => Go(p.(state := RequestLine(ReqFirstHttpMajor)))
    case ReqFirstHttpMajor => FirstMajor(p, c, RequestLine(ReqHttpMajor))
    case ReqHttpMajor => MoreMajor(p, c, RequestLine(ReqFirstHttpMinor))
    case ReqFirstHttpMinor => FirstMinor(p, c, RequestLine(ReqHttpMinor))
    case ReqHttpMinor =>
      var oldest := p.msg.major == 0 && p.msg.minor == 9;
      if c == CR then Go(p.(state := if oldest then AtEnd(HeadersAlmostDone) else RequestLine(ReqLineAlmostDone)))
      else if c == LF then
        if oldest then Redo(p.(state := AtEnd(HeadersAlmostDone))) else Go(p.(state := InField(HeaderFieldStart)))
      else MoreMinor(p, c)
    case ReqLineAlmostDone =>
      if c == LF then Go(p.(state := InField(HeaderFieldStart))) else Bad(p, LF_EXPECTED)
  }

  const CONTENT_LENGTH: string := "content-length"
  const TRANSFER_ENCODING: string := "transfer-encoding"
  const UPGRADE: string := "upgrade"
  const CHUNKED: string := "chunked"

  /** One more byte against a literal: `matching` goes on, to `full` on the last byte of the literal. */
  function Matched(p: Parser, c: char, literal: string, full: HeaderState): Parser {
    var q := p.(index := p.index + 1);
    if q.index >= |literal| || c != literal[q.index] then q.(headerState := General)
    else if q.index == |literal| - 1 then q.(headerState := full)
    else q
  }

  function FieldByte(p: Parser, c: char): Parser {
    match p.headerState
    case MatchingContentLength => Matched(p, Lower(c), CONTENT_LENGTH, HeaderState.ContentLength)
    case MatchingTransferEncoding => Matched(p, Lower(c), TRANSFER_ENCODING, HeaderState.TransferEncoding)
    case MatchingUpgrade => Matched(p, Lower(c), UPGRADE, HeaderState.Upgrade)
    case ContentLength => if c != ' ' then p.(headerState := General) else p
    case TransferEncoding => if c != ' ' then p.(headerState := General) else p
    case Upgrade => if c != ' ' then p.(headerState := General) else p
    case _ => p
  }

  function DispatchField(p: Parser, c: char): Out
    requires p.state.InField?
  {
    match p.state.field
    case HeaderFieldStart =>
      if c == CR then Go(p.(state := AtEnd(HeadersAlmostDone)))
      else if c == LF then Redo(p.(state := AtEnd(HeadersAlmostDone)))
      else if !IsToken(c) then Bad(p, INVALID_HEADER_TOKEN)
      else Go(p.(index := 0, state := InField(HeaderField), headerState := FieldLetter(c))).(mark := Some(Field))
    case HeaderField =>
      if IsToken(c) then Go(FieldByte(p, c))
      else if c == ':' then Go(p.(state := InValue(HeaderValueStart))).(flush := Before(Field))
      else Bad(p, INVALID_HEADER_TOKEN)
  }

  /** The matcher picked by the first byte of a header field. */
  function FieldLetter(c: char): HeaderState {
    var l := Lower(c);
    if l == 'c' then MatchingContentLength
    else if l == 't' then MatchingTransferEncoding
    else if l == 'u' then MatchingUpgrade
    else General
  }

  function DispatchHeaderValue(p: Parser, c: char): Out
    requires p.state.InValue?
  {
    match p.state.value
    case HeaderValueStart => DispatchValueStart(p, c)
    case HeaderValue => DispatchValue(p, c)
    case HeaderAlmostDone =>
      var q := p.(msg := if p.headerState.Chunked? then p.msg.(chunked := true) else p.msg);
      if c == LF then Go(q.(state := InValue(HeaderValueLws)))
      else Go(q.(state := InValue(HeaderValue))).(calls := [Data(Value, " ")])
    case HeaderValueLws =>
      if c == ' ' || c == HT then Go(p.(state := InValue(HeaderValueStart))).(calls := [Data(Value, " ")])
      else Redo(p.(state := InField(HeaderFieldStart)))
  }

  function DispatchValueStart(p: Parser, c: char): Out {
    var q := p.(state := InValue(HeaderValue), index := 0);
    if c == ' ' || c == HT then Go(p)
    else if (c == CR || c == LF) && p.headerState.ContentLength? then Bad(q, INVALID_CONTENT_LENGTH)
    else if (c == CR || c == LF) && p.headerState.TransferEncoding? then Bad(q, INVALID_TRANSFER_ENCODING)
    else if (c == CR || c == LF) && p.headerState.Upgrade? then Bad(q, INVALID_UPGRADE)
    else if c == CR then
      Go(q.(headerState := General, state := InValue(HeaderAlmostDone))).(mark := Some(Value), flush := Before(Value))
    else if c == LF then
      Go(q.(state := InField(HeaderFieldStart))).(mark := Some(Value), flush := Before(Value))
    else
      match p.headerState
      case Upgrade => Go(q.(msg := p.msg.(upgradeFlag := true), headerState := General)).(mark := Some(Value))
      case TransferEncoding =>
        Go(q.(headerState := if Lower(c) == 'c' then MatchingChunked else General)).(mark := Some(Value))
      case ContentLength =>
        if !IsNum(c) then Bad(q, INVALID_CONTENT_LENGTH)
        else Go(q.(contentLength := DigitVal(c))).(mark := Some(Value))
      case _ => Go(q.(headerState := if c == QUOTE then GeneralAndQuote else General)).(mark := Some(Value))
  }

  function DispatchValue(p: Parser, c: char): Out {
    var escaped := p.headerState.GeneralAndQuoteAndEscape?;
    if c == CR && !escaped then Go(p.(state := InValue(HeaderAlmostDone))).(flush := Before(Value))
    else if c == LF && !escaped then Redo(p.(state := InValue(HeaderAlmostDone))).(flush := Before(Value))
    else if !IsHeaderChar(c) && !escaped then Bad(p, INVALID_HEADER_TOKEN)
    else
      match p.headerState
      case General => Go(if c == QUOTE then p.(headerState := GeneralAndQuote) else p)
      case GeneralAndQuote =>
        Go(if c == QUOTE then p.(headerState := General)
           else if c == BACKSLASH then p.(headerState := GeneralAndQuoteAndEscape)
           else p)
      case GeneralAndQuoteAndEscape => Go(p.(headerState := GeneralAndQuote))
      case TransferEncoding => Bad(p, INVALID_HEADER_TOKEN)
      case ContentLength =>
        if c == ' ' then Go(p)
        else if !IsNum(c) then Bad(p, INVALID_CONTENT_LENGTH)
        else if p.contentLength > (INT64_MAX - 10) / 10 then Bad(p, HUGE_CONTENT_LENGTH)
        else Go(p.(contentLength := p.contentLength * 10 + DigitVal(c)))
      case MatchingChunked => Go(Matched(p, Lower(c), CHUNKED, HeaderState.Chunked))
      case Chunked => Go(if c != ' ' then p.(headerState := General) else p)
      case _ => Go(p.(headerState := General))
  }

  function Finished(p: Parser, ctl: Control): Out {
    Out(p.(state := StartState(p.msg)), None, Keep, [MessageComplete], true, ctl)
  }

  function DispatchEnd(p: Parser, c: char): Out
    requires p.state.AtEnd?
  {
    match p.state.end
    case HeadersAlmostDone =>
      if c != LF then Bad(p, STRICT)
      else if p.msg.trailing then Redo(p.(state := InBody(MessageDone))).(calls := [ChunkComplete])
      else
        var m := p.msg.(upgrade := p.msg.upgradeFlag || p.msg.verb == CONNECT, skipBody := p.msg.skipBody || p.msg.bodiless);
        Redo(As(p, AtEnd(HeadersDone), m)).(calls := [HeadersComplete])
    case HeadersDone => DispatchHeadersDone(p)
  }

  function DispatchHeadersDone(p: Parser): Out {
    var m := p.msg;
    var hasBody := m.chunked || p.contentLength > 0;
    if m.upgrade && (m.verb == CONNECT || m.skipBody || !hasBody) then Finished(p, Stop)
    else if m.skipBody then Finished(p, Next)
    else if m.chunked then Go(p.(state := InChunkSize(ChunkSizeStart))).(reset := true)
    else if p.contentLength == 0 then Finished(p, Next)
    else if p.contentLength > 0 then Go(p.(state := InBody(BodyIdentity))).(reset := true)
    else if m.kind.Request? || 100 <= m.status <= 199 || m.status == 204 || m.status == 304 then Finished(p, Next)
    else Go(p.(state := InBody(BodyIdentityEof))).(reset := true)
  }

  function DispatchChunk(p: Parser, c: char): Out
    requires p.state.InChunkSize?
  {
    match p.state.chunk
    case ChunkSizeStart =>
      if Unhex(c) == -1 then Bad(p, INVALID_CHUNK_SIZE)
      else Go(p.(contentLength := Unhex(c), state := InChunkSize(ChunkSize)))
    case ChunkSize =>
      if c == CR then Go(p.(state := InChunkSize(ChunkSizeAlmostDone)))
      else if Unhex(c) == -1 then
        if c == ';' || c == ' ' then Go(p.(state := InChunkSize(ChunkParameters))) else Bad(p, INVALID_CHUNK_SIZE)
      else if p.contentLength > (INT64_MAX - Unhex(c)) / 16 then Bad(p, HUGE_CHUNK_SIZE)
      else Go(p.(contentLength := p.contentLength * 16 + Unhex(c)))
    case ChunkParameters => Go(if c == CR then p.(state := InChunkSize(ChunkSizeAlmostDone)) else p)
    case ChunkSizeAlmostDone =>
      Go(if p.contentLength == 0 then As(p, InField(HeaderFieldStart), p.msg.(trailing := true))
         else p.(state := InBody(ChunkData))).(calls := [ChunkHeader(p.contentLength)])
  }

  /** The body states take one byte at a time here. */
  function DispatchBody(p: Parser, c: char): Out
    requires p.state.InBody?
  {
    match p.state.body
    case BodyIdentity =>
      var q := p.(contentLength := p.contentLength - 1);
      if q.contentLength == 0 then
        Out(q.(state := InBody(MessageDone)), Some(Body), Through(Body), [], false, Again)
      else Go(q).(mark := Some(Body))
    case BodyIdentityEof => Go(p).(mark := Some(Body))
    case MessageDone => Finished(p, if p.msg.upgrade then Stop else Next)
    case ChunkData =>
      var q := p.(contentLength := p.contentLength - 1);
      Go(if q.contentLength == 0 then q.(state := InBody(ChunkDataAlmostDone)) else q).(mark := Some(Body))
    case ChunkDataAlmostDone => Go(p.(state := InBody(ChunkDataDone))).(flush := Before(Body))
    case ChunkDataDone =>
      Out(p.(state := InChunkSize(ChunkSizeStart)), None, Keep, [ChunkComplete], true, Next)
  }

  function Dispatch(p: Parser, c: char): Out {
    match p.state
    case Beginning(_) => DispatchStart(p, c)
    case StatusLine(_) => DispatchStatus(p, c)
    case RequestLine(_) => DispatchRequest(p, c)
    case InUrl(_) => DispatchUrl(p, c)
    case InField(_) => DispatchField(p, c)
    case InValue(_) => DispatchHeaderValue(p, c)
    case AtEnd(_) => DispatchEnd(p, c)
    case InChunkSize(_) => DispatchChunk(p, c)
    case InBody(_) => DispatchBody(p, c)
    case Unhandled => Bad(p, INVALID_INTERNAL_STATE)
  }
}
