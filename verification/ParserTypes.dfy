/** The parser record, its enumerations, and the callbacks it makes. */
module ParserTypes {

  datatype Kind = Request | Response | Both

  datatype Verb =
    | DELETE | GET | HEAD | POST | PUT | CONNECT | OPTIONS | TRACE | COPY | LOCK | MKCOL | MOVE
    | PROPFIND | PROPPATCH | UNLOCK | REPORT | MKACTIVITY | CHECKOUT | MERGE | MSEARCH | NOTIFY
    | SUBSCRIBE | UNSUBSCRIBE | PATCH

  function VerbString(m: Verb): string {
    match m
    case DELETE => "DELETE"
    case GET => "GET"
    case HEAD => "HEAD"
    case POST => "POST"
    case PUT => "PUT"
    case CONNECT => "CONNECT"
    case OPTIONS => "OPTIONS"
    case TRACE => "TRACE"
    case COPY => "COPY"
    case LOCK => "LOCK"
    case MKCOL => "MKCOL"
    case MOVE => "MOVE"
    case PROPFIND => "PROPFIND"
    case PROPPATCH => "PROPPATCH"
    case UNLOCK => "UNLOCK"
    case REPORT => "REPORT"
    case MKACTIVITY => "MKACTIVITY"
    case CHECKOUT => "CHECKOUT"
    case MERGE => "MERGE"
    case MSEARCH => "M-SEARCH"
    case NOTIFY => "NOTIFY"
    case SUBSCRIBE => "SUBSCRIBE"
    case UNSUBSCRIBE => "UNSUBSCRIBE"
    case PATCH => "PATCH"
  }

  // The states of `http_parser_execute`, by the part of the message that they read.

  datatype StartStep = | PreStartReqOrRes | StartReqOrRes | ResOrRespH | PreStartRes | StartRes
    | PreStartReq | StartReq

  datatype StatusStep = | ResH | ResHT | ResHTT | ResHTTP | ResFirstHttpMajor | ResHttpMajor
    | ResFirstHttpMinor | ResHttpMinor | ResFirstStatusCode | ResStatusCode | ResStatus | ResLineAlmostDone

  datatype RequestStep = | ReqMethod | ReqSpacesBeforeUrl | ReqHttpStart | ReqHttpH | ReqHttpHT | ReqHttpHTT
    | ReqHttpHTTP | ReqFirstHttpMajor | ReqHttpMajor | ReqFirstHttpMinor | ReqHttpMinor | ReqLineAlmostDone

  datatype UrlStep = | ReqSchema | ReqSchemaSlash | ReqSchemaSlashSlash | ReqHostStart | ReqHost
    | ReqHostIpv6 | ReqHostDone | ReqPort | ReqPath | ReqQueryStringStart | ReqQueryString
    | ReqFragmentStart | ReqFragment

  datatype FieldStep = | HeaderFieldStart | HeaderField

  datatype ValueStep = | HeaderValueStart | HeaderValue | HeaderValueLws | HeaderAlmostDone

  datatype EndStep = | HeadersAlmostDone | HeadersDone

  datatype ChunkStep = | ChunkSizeStart | ChunkSize | ChunkParameters | ChunkSizeAlmostDone

  datatype BodyStep = | ChunkData | ChunkDataAlmostDone | ChunkDataDone | BodyIdentity | BodyIdentityEof
    | MessageDone

  /** `Unhandled` stands for the enumerators that no case of the switch handles. */
  datatype State =
    | Beginning(start: StartStep)
    | StatusLine(status: StatusStep)
    | RequestLine(request: RequestStep)
    | InUrl(url: UrlStep)
    | InField(field: FieldStep)
    | InValue(value: ValueStep)
    | AtEnd(end: EndStep)
    | InChunkSize(chunk: ChunkStep)
    | InBody(body: BodyStep)
    | Unhandled

  /** The header states, and with them the chunk-size line, come before the body states. */
  predicate ParsingHeader(s: State) {
    !s.InBody?
  }

  datatype HeaderState =
    | General | GeneralAndQuote | GeneralAndQuoteAndEscape
    | MatchingContentLength | MatchingTransferEncoding | MatchingUpgrade
    | ContentLength | TransferEncoding | Upgrade
    | MatchingChunked | Chunked

  datatype Errno =
    | OK | INVALID_EOF_STATE | HEADER_OVERFLOW | INVALID_VERSION | INVALID_STATUS | INVALID_METHOD
    | INVALID_URL | INVALID_HOST | INVALID_PORT | INVALID_PATH | INVALID_QUERY_STRING
    | INVALID_FRAGMENT | LF_EXPECTED | INVALID_HEADER_TOKEN | INVALID_CONTENT_LENGTH
    | HUGE_CONTENT_LENGTH | INVALID_CHUNK_SIZE | HUGE_CHUNK_SIZE | INVALID_TRANSFER_ENCODING
    | INVALID_UPGRADE | INVALID_CONSTANT | INVALID_INTERNAL_STATE | STRICT | UNKNOWN

  const HTTP_MAX_HEADER_SIZE: nat := 80 * 1024
  const INT64_MAX: int := 0x7fff_ffff_ffff_ffff
  const UINT32_SPAN: int := 0x1_0000_0000

  /** What the parser has learnt about the current message. `bodiless` is not a field of
      `http_parser`: it is the answer of the `on_headers_complete` callback (true for 1, "no body"). */
  datatype Message = Message(
    kind: Kind, chunked: bool, trailing: bool, upgradeFlag: bool, skipBody: bool,
    major: nat, minor: nat, status: nat, verb: Verb, upgrade: bool, bodiless: bool)

  /** The fields of `http_parser` but `nread`, which no case of the switch looks at. */
  datatype Parser = Parser(
    state: State, headerState: HeaderState, index: nat, contentLength: int, errno: Errno, msg: Message)

  function Cleared(m: Message): Message {
    m.(chunked := false, trailing := false, upgradeFlag := false, skipBody := false)
  }

  /** `http_parser_init`: overwrites some fields of a record and leaves the others as they were. */
  function Init(junk: Parser, kind: Kind): Parser {
    junk.(state := if kind.Request? then Beginning(PreStartReq) else if kind.Response? then Beginning(PreStartRes) else Beginning(PreStartReqOrRes),
          errno := OK,
          msg := Cleared(junk.msg).(kind := kind, upgrade := false, verb := DELETE, major := 0, minor := 0))
  }

  function StartState(m: Message): State {
    if m.kind.Request? then Beginning(PreStartReq) else Beginning(PreStartRes)
  }

  /** The kinds of data callback; each has its own mark in `http_parser_execute`. */
  datatype DataKind = Field | Value | Url | Reason | Body

  datatype Event =
    | MessageBegin
    | HeadersComplete
    | MessageComplete
    | ChunkHeader(length: int)
    | ChunkComplete
    | Data(kind: DataKind, bytes: string)
}
