/** The invariant of the whole state machine. */
module ParserInvariant {
  import opened Chars
  import opened Options
  import opened ParserTypes
  import opened Transition
  import opened ParserRun

  /** The data that may be under report in a state. A header value that goes on after a bare CR is
      not under report, since its mark was used up at the CR. */
  predicate GoodOpen(s: State, open: Option<DataKind>) {
    match s
    case InUrl(_) => open == Some(Url)
    case InField(f) => open == (if f.HeaderField? then Some(Field) else None)
    case InValue(v) => open.None? || (v.HeaderValue? && open == Some(Value))
    case StatusLine(l) => open.None? || (l.ResStatus? && open == Some(Reason))
    case InBody(y) => open.None? || (!y.ChunkDataDone? && !y.MessageDone? && open == Some(Body))
    case _ => open.None?
  }

  /** The header states that meet each state, and how far the matchers have got. */
  predicate GoodHeader(s: State, h: HeaderState, index: nat, length: int) {
    if s == InField(HeaderField) then
      match h {
        case MatchingContentLength => index < |CONTENT_LENGTH| - 1
        case MatchingTransferEncoding => index < |TRANSFER_ENCODING| - 1
        case MatchingUpgrade => index < |UPGRADE| - 1
        case _ => h.General? || h.ContentLength? || h.TransferEncoding? || h.Upgrade?
      }
    else if s == InValue(HeaderValue) then GoodValue(h, index, length) || h.GeneralAndQuoteAndEscape?
    else if s == InValue(HeaderAlmostDone) then GoodValue(h, index, length)
    else true
  }

  predicate GoodValue(h: HeaderState, index: nat, length: int) {
    match h
    case General => true
    case GeneralAndQuote => true
    case ContentLength => 0 <= length
    case MatchingChunked => index < |CHUNKED| - 1
    case Chunked => true
    case _ => false
  }

  /** The body length fits what is left to read, and stays within int64 once a message has begun. */
  predicate GoodLength(s: State, length: int, m: Message) {
    match s
    case Beginning(b) => b.ResOrRespH? ==> -1 <= length <= INT64_MAX && !m.trailing
    case InChunkSize(z) => 0 <= length + (if z.ChunkSizeStart? then 1 else 0) && length <= INT64_MAX && m.chunked && !m.trailing
    case InBody(y) =>
      && -1 <= length <= INT64_MAX
      && (y.BodyIdentity? || y.ChunkData? ==> 0 < length)
      && (y.ChunkDataAlmostDone? || y.ChunkDataDone? ==> length == 0)
      && (y.ChunkData? || y.ChunkDataAlmostDone? || y.ChunkDataDone? ==> m.chunked)
      && (!y.MessageDone? ==> !m.trailing)
    case AtEnd(e) => -1 <= length <= INT64_MAX && (e.HeadersDone? ==> !m.trailing)
    case InField(_) => -1 <= length <= INT64_MAX
    case InValue(_) => -1 <= length <= INT64_MAX
    case _ => -1 <= length <= INT64_MAX && !m.trailing
  }

  predicate GoodKind(s: State, m: Message) {
    match s
    case Beginning(b) =>
      (match b
       case PreStartReq => m.kind.Request?
       case StartReq => m.kind.Request?
       case PreStartRes => m.kind.Response?
       case StartRes => m.kind.Response?
       case _ => m.kind.Both?)
    case RequestLine(_) => m.kind.Request?
    case InUrl(_) => m.kind.Request?
    case StatusLine(_) => m.kind.Response?
    case InBody(y) => !m.kind.Both? && (y.BodyIdentityEof? ==> m.kind.Response?)
    case _ => !m.kind.Both?
  }

  predicate Good(p: Parser, open: Option<DataKind>) {
    && p.errno.OK?
    && !p.state.Unhandled?
    && GoodOpen(p.state, open)
    && GoodHeader(p.state, p.headerState, p.index, p.contentLength)
    && GoodLength(p.state, p.contentLength, p.msg)
    && GoodKind(p.state, p.msg)
  }

  function OpenMid(open: Option<DataKind>, o: Out): Option<DataKind> {
    if o.mark.Some? && open.None? then o.mark else open
  }

  function OpenAfter(open: Option<DataKind>, o: Out): Option<DataKind> {
    if o.flush.Keep? then OpenMid(open, o)
    else if OpenMid(open, o) == Some(o.flush.kind) then None
    else OpenMid(open, o)
  }

  /** A pass never meets a mark of another kind, and makes other callbacks with no mark set. */
  predicate Compatible(open: Option<DataKind>, o: Out) {
    && (o.mark.Some? ==> open.None? || open == o.mark)
    && (!o.flush.Keep? && OpenMid(open, o).Some? ==> OpenMid(open, o).value == o.flush.kind)
    && (o.flush.Through? ==> o.mark == Some(o.flush.kind))
    && (o.calls != [] || o.ctl.Stop? ==> OpenAfter(open, o).None?)
  }

  predicate OpenStep(open: Option<DataKind>, o: Out) {
    Compatible(open, o) && (!o.ctl.Fail? ==> GoodOpen(o.p.state, OpenAfter(open, o)))
  }

  predicate ErrnoStep(o: Out) {
    && !o.p.state.Unhandled?
    && (o.ctl.Fail? <==> !o.p.errno.OK?)
    && !o.p.errno.INVALID_INTERNAL_STATE?
  }

  predicate MatchStep(o: Out) {
    !o.ctl.Fail? ==> GoodHeader(o.p.state, o.p.headerState, o.p.index, o.p.contentLength)
  }

  predicate LengthStep(o: Out) {
    !o.ctl.Fail? ==> GoodLength(o.p.state, o.p.contentLength, o.p.msg)
  }

  predicate KindStep(p: Parser, o: Out) {
    && (!o.ctl.Fail? ==> GoodKind(o.p.state, o.p.msg))
    && (p.msg.kind.Both? || o.p.msg.kind == p.msg.kind)
  }

  // At most one mark, of the right kind for the state.

  lemma OpenInStart(p: Parser, open: Option<DataKind>, b: char)
    requires p.state.Beginning? && GoodOpen(p.state, open)
    ensures OpenStep(open, DispatchStart(p, b))
  {
  }

  lemma OpenInStatus(p: Parser, open: Option<DataKind>, b: char)
    requires p.state.StatusLine? && GoodOpen(p.state, open)
    ensures OpenStep(open, DispatchStatus(p, b))
  {
    hide IsNum, MethodByte;
  }

  lemma OpenInRequest(p: Parser, open: Option<DataKind>, b: char)
    requires p.state.RequestLine? && GoodOpen(p.state, open)
    ensures OpenStep(open, DispatchRequest(p, b))
  {
    hide IsNum, MethodByte;
  }

  lemma OpenInUrl(p: Parser, open: Option<DataKind>, b: char)
    requires p.state.InUrl? && GoodOpen(p.state, open)
    ensures OpenStep(open, DispatchUrl(p, b))
  {
  }

  lemma OpenInField(p: Parser, open: Option<DataKind>, b: char)
    requires p.state.InField? && GoodOpen(p.state, open)
    ensures OpenStep(open, DispatchField(p, b))
  {
  }

  lemma OpenInValue(p: Parser, open: Option<DataKind>, b: char)
    requires p.state.InValue? && GoodOpen(p.state, open)
    ensures OpenStep(open, DispatchHeaderValue(p, b))
  {
  }

  lemma OpenInEnd(p: Parser, open: Option<DataKind>, b: char)
    requires p.state.AtEnd? && GoodOpen(p.state, open)
    ensures OpenStep(open, DispatchEnd(p, b))
  {
  }

  lemma OpenInChunk(p: Parser, open: Option<DataKind>, b: char)
    requires p.state.InChunkSize? && GoodOpen(p.state, open)
    ensures OpenStep(open, DispatchChunk(p, b))
  {
  }

  lemma OpenInBody(p: Parser, open: Option<DataKind>, b: char)
    requires p.state.InBody? && GoodOpen(p.state, open)
    ensures OpenStep(open, DispatchBody(p, b))
  {
  }

  // No pass ends in an unhandled state, and only a failing one sets the error.

  lemma ErrnoInStart(p: Parser, b: char)
    requires p.state.Beginning? && p.errno.OK?
    ensures ErrnoStep(DispatchStart(p, b))
  {
  }

  lemma ErrnoInStatus(p: Parser, b: char)
    requires p.state.StatusLine? && p.errno.OK?
    ensures ErrnoStep(DispatchStatus(p, b))
  {
    hide IsNum, MethodByte;
  }

  lemma ErrnoInRequest(p: Parser, b: char)
    requires p.state.RequestLine? && p.errno.OK?
    ensures ErrnoStep(DispatchRequest(p, b))
  {
  }

  lemma ErrnoInUrl(p: Parser, b: char)
    requires p.state.InUrl? && p.errno.OK?
    ensures ErrnoStep(DispatchUrl(p, b))
  {
  }

  lemma ErrnoInField(p: Parser, b: char)
    requires p.state.InField? && p.errno.OK?
    ensures ErrnoStep(DispatchField(p, b))
  {
  }

  lemma ErrnoInValue(p: Parser, b: char)
    requires p.state.InValue? && p.errno.OK?
    ensures ErrnoStep(DispatchHeaderValue(p, b))
  {
  }

  lemma ErrnoInEnd(p: Parser, b: char)
    requires p.state.AtEnd? && p.errno.OK?
    ensures ErrnoStep(DispatchEnd(p, b))
  {
  }

  lemma ErrnoInChunk(p: Parser, b: char)
    requires p.state.InChunkSize? && p.errno.OK?
    ensures ErrnoStep(DispatchChunk(p, b))
  {
  }

  lemma ErrnoInBody(p: Parser, b: char)
    requires p.state.InBody? && p.errno.OK?
    ensures ErrnoStep(DispatchBody(p, b))
  {
  }

  // The header states and matcher positions that can meet each state.

  lemma MatchInStart(p: Parser, b: char)
    requires p.state.Beginning? && GoodHeader(p.state, p.headerState, p.index, p.contentLength)
    ensures MatchStep(DispatchStart(p, b))
  {
  }

  lemma MatchInStatus(p: Parser, b: char)
    requires p.state.StatusLine? && GoodHeader(p.state, p.headerState, p.index, p.contentLength)
    ensures MatchStep(DispatchStatus(p, b))
  {
  }

  lemma MatchInRequest(p: Parser, b: char)
    requires p.state.RequestLine? && GoodHeader(p.state, p.headerState, p.index, p.contentLength)
    ensures MatchStep(DispatchRequest(p, b))
  {
  }

  lemma MatchInUrl(p: Parser, b: char)
    requires p.state.InUrl? && GoodHeader(p.state, p.headerState, p.index, p.contentLength)
    ensures MatchStep(DispatchUrl(p, b))
  {
  }

  lemma MatchInField(p: Parser, b: char)
    requires p.state.InField? && GoodHeader(p.state, p.headerState, p.index, p.contentLength)
    ensures MatchStep(DispatchField(p, b))
  {
  }

  lemma MatchInValue(p: Parser, b: char)
    requires p.state.InValue? && GoodHeader(p.state, p.headerState, p.index, p.contentLength)
    ensures MatchStep(DispatchHeaderValue(p, b))
  {
  }

  lemma MatchInEnd(p: Parser, b: char)
    requires p.state.AtEnd? && GoodHeader(p.state, p.headerState, p.index, p.contentLength)
    ensures MatchStep(DispatchEnd(p, b))
  {
  }

  lemma MatchInChunk(p: Parser, b: char)
    requires p.state.InChunkSize? && GoodHeader(p.state, p.headerState, p.index, p.contentLength)
    ensures MatchStep(DispatchChunk(p, b))
  {
  }

  lemma MatchInBody(p: Parser, b: char)
    requires p.state.InBody? && GoodHeader(p.state, p.headerState, p.index, p.contentLength)
    ensures MatchStep(DispatchBody(p, b))
  {
  }

  // The body length and the chunk flags.

  lemma LengthInStart(p: Parser, b: char)
    requires p.state.Beginning? && GoodLength(p.state, p.contentLength, p.msg) && GoodHeader(p.state, p.headerState, p.index, p.contentLength)
    ensures LengthStep(DispatchStart(p, b))
  {
  }

  lemma LengthInStatus(p: Parser, b: char)
    requires p.state.StatusLine? && GoodLength(p.state, p.contentLength, p.msg) && GoodHeader(p.state, p.headerState, p.index, p.contentLength)
    ensures LengthStep(DispatchStatus(p, b))
  {
    hide IsNum, MethodByte;
  }

  lemma LengthInRequest(p: Parser, b: char)
    requires p.state.RequestLine? && GoodLength(p.state, p.contentLength, p.msg) && GoodHeader(p.state, p.headerState, p.index, p.contentLength)
    ensures LengthStep(DispatchRequest(p, b))
  {
    hide IsNum, MethodByte;
    match p.state.request
    case ReqMethod =>
    case ReqSpacesBeforeUrl =>
    case ReqHttpMinor =>
    case _ =>
  }

  lemma LengthInUrl(p: Parser, b: char)
    requires p.state.InUrl? && GoodLength(p.state, p.contentLength, p.msg) && GoodHeader(p.state, p.headerState, p.index, p.contentLength)
    ensures LengthStep(DispatchUrl(p, b))
  {
  }

  lemma LengthInField(p: Parser, b: char)
    requires p.state.InField? && GoodLength(p.state, p.contentLength, p.msg) && GoodHeader(p.state, p.headerState, p.index, p.contentLength)
    ensures LengthStep(DispatchField(p, b))
  {
  }

  lemma LengthInValue(p: Parser, b: char)
    requires p.state.InValue? && GoodLength(p.state, p.contentLength, p.msg) && GoodHeader(p.state, p.headerState, p.index, p.contentLength)
    ensures LengthStep(DispatchHeaderValue(p, b))
  {
  }

  lemma LengthInEnd(p: Parser, b: char)
    requires p.state.AtEnd? && GoodLength(p.state, p.contentLength, p.msg) && GoodHeader(p.state, p.headerState, p.index, p.contentLength)
    ensures LengthStep(DispatchEnd(p, b))
  {
  }

  lemma LengthInChunk(p: Parser, b: char)
    requires p.state.InChunkSize? && GoodLength(p.state, p.contentLength, p.msg) && GoodHeader(p.state, p.headerState, p.index, p.contentLength)
    ensures LengthStep(DispatchChunk(p, b))
  {
  }

  lemma LengthInBody(p: Parser, b: char)
    requires p.state.InBody? && GoodLength(p.state, p.contentLength, p.msg) && GoodHeader(p.state, p.headerState, p.index, p.contentLength)
    ensures LengthStep(DispatchBody(p, b))
  {
  }

  // The kind of message.

  lemma KindInStart(p: Parser, b: char)
    requires p.state.Beginning? && GoodKind(p.state, p.msg)
    ensures KindStep(p, DispatchStart(p, b))
  {
  }

  lemma KindInStatus(p: Parser, b: char)
    requires p.state.StatusLine? && GoodKind(p.state, p.msg)
    ensures KindStep(p, DispatchStatus(p, b))
  {
    hide KindStep, GoodKind, DispatchStatus;
    var l := p.state.status;
    if l.ResFirstHttpMajor? || l.ResHttpMajor? || l.ResFirstHttpMinor? || l.ResHttpMinor? { KindInVersion(p, b); } else { KindInCode(p, b); }
  }

  lemma KindInVersion(p: Parser, b: char)
    requires p.state.StatusLine? && GoodKind(p.state, p.msg)
    requires var l := p.state.status; l.ResFirstHttpMajor? || l.ResHttpMajor? || l.ResFirstHttpMinor? || l.ResHttpMinor?
    ensures KindStep(p, DispatchStatus(p, b))
  {
    hide IsNum;
  }

  lemma KindInCode(p: Parser, b: char)
    requires p.state.StatusLine? && GoodKind(p.state, p.msg)
    requires var l := p.state.status; !l.ResFirstHttpMajor? && !l.ResHttpMajor? && !l.ResFirstHttpMinor? && !l.ResHttpMinor?
    ensures KindStep(p, DispatchStatus(p, b))
  {
    hide IsNum;
  }

  lemma KindInRequest(p: Parser, b: char)
    requires p.state.RequestLine? && GoodKind(p.state, p.msg)
    ensures KindStep(p, DispatchRequest(p, b))
  {
    hide IsNum, MethodByte;
    match p.state.request
    case ReqMethod =>
    case ReqSpacesBeforeUrl =>
    case ReqHttpMinor =>
    case _ =>
  }

  lemma UrlLeadsOn(p: Parser, b: char)
    requires p.state.InUrl?
    ensures var q := DispatchUrl(p, b).p; q.msg.kind == p.msg.kind && (q.state.InUrl? || q.state.RequestLine? || q.state.AtEnd?)
  {
    hide UrlByte, Versionless;
    match UrlByte(p.state.url, b)
    case To(_) =>
    case Recheck(_) =>
    case AtSpace =>
    case AtCr => VersionlessParts(p);
    case AtLf => VersionlessParts(p);
    case Amiss(_) =>
  }

  lemma VersionlessParts(p: Parser)
    ensures Versionless(p).state == AtEnd(HeadersAlmostDone) && Versionless(p).msg.kind == p.msg.kind
  {
  }

  lemma KindInUrl(p: Parser, b: char)
    requires p.state.InUrl? && GoodKind(p.state, p.msg)
    ensures KindStep(p, DispatchUrl(p, b))
  {
    hide DispatchUrl;
    UrlLeadsOn(p, b);
  }

  lemma KindInField(p: Parser, b: char)
    requires p.state.InField? && GoodKind(p.state, p.msg)
    ensures KindStep(p, DispatchField(p, b))
  {
  }

  lemma KindInValue(p: Parser, b: char)
    requires p.state.InValue? && GoodKind(p.state, p.msg)
    ensures KindStep(p, DispatchHeaderValue(p, b))
  {
    hide DispatchValueStart, DispatchValue;
    KindInValueStart(p, b);
    KindInValueBytes(p, b);
  }

  lemma KindInValueStart(p: Parser, b: char)
    requires p.state == InValue(HeaderValueStart) ==> GoodKind(p.state, p.msg)
    ensures p.state == InValue(HeaderValueStart) ==> KindStep(p, DispatchValueStart(p, b))
  {
    hide IsNum, Lower;
  }

  lemma KindInValueBytes(p: Parser, b: char)
    requires p.state == InValue(HeaderValue) ==> GoodKind(p.state, p.msg)
    ensures p.state == InValue(HeaderValue) ==> KindStep(p, DispatchValue(p, b))
  {
    hide IsNum, Lower, IsHeaderChar, CHUNKED;
  }

  lemma KindInEnd(p: Parser, b: char)
    requires p.state.AtEnd? && GoodKind(p.state, p.msg)
    ensures KindStep(p, DispatchEnd(p, b))
  {
  }

  lemma KindInChunk(p: Parser, b: char)
    requires p.state.InChunkSize? && GoodKind(p.state, p.msg)
    ensures KindStep(p, DispatchChunk(p, b))
  {
  }

  lemma KindInBody(p: Parser, b: char)
    requires p.state.InBody? && GoodKind(p.state, p.msg)
    ensures KindStep(p, DispatchBody(p, b))
  {
  }

  predicate StepOk(p: Parser, open: Option<DataKind>, o: Out) {
    && OpenStep(open, o)
    && ErrnoStep(o)
    && (!o.ctl.Fail? ==> Good(o.p, OpenAfter(open, o)))
    && (p.msg.kind.Both? || o.p.msg.kind == p.msg.kind)
  }

  /** Every pass through the switch keeps the invariant or fails with one of the documented errors. */
  lemma DispatchOk(p: Parser, open: Option<DataKind>, b: char)
    requires Good(p, open)
    ensures StepOk(p, open, Dispatch(p, b))
  {
    hide DispatchStart, DispatchStatus, DispatchRequest, DispatchUrl, DispatchField, DispatchHeaderValue, DispatchEnd,
      DispatchChunk, DispatchBody;
    hide GoodOpen, GoodHeader, GoodLength, GoodKind, Compatible, OpenAfter;
    match p.state
    case Beginning(_) => OpenInStart(p, open, b); ErrnoInStart(p, b); MatchInStart(p, b); LengthInStart(p, b); KindInStart(p, b);
    case StatusLine(_) => OpenInStatus(p, open, b); ErrnoInStatus(p, b); MatchInStatus(p, b); LengthInStatus(p, b); KindInStatus(p, b);
    case RequestLine(_) => OpenInRequest(p, open, b); ErrnoInRequest(p, b); MatchInRequest(p, b); LengthInRequest(p, b); KindInRequest(p, b);
    case InUrl(_) => OpenInUrl(p, open, b); ErrnoInUrl(p, b); MatchInUrl(p, b); LengthInUrl(p, b); KindInUrl(p, b);
    case InField(_) => OpenInField(p, open, b); ErrnoInField(p, b); MatchInField(p, b); LengthInField(p, b); KindInField(p, b);
    case InValue(_) => OpenInValue(p, open, b); ErrnoInValue(p, b); MatchInValue(p, b); LengthInValue(p, b); KindInValue(p, b);
    case AtEnd(_) => OpenInEnd(p, open, b); ErrnoInEnd(p, b); MatchInEnd(p, b); LengthInEnd(p, b); KindInEnd(p, b);
    case InChunkSize(_) => OpenInChunk(p, open, b); ErrnoInChunk(p, b); MatchInChunk(p, b); LengthInChunk(p, b); KindInChunk(p, b);
    case InBody(_) => OpenInBody(p, open, b); ErrnoInBody(p, b); MatchInBody(p, b); LengthInBody(p, b); KindInBody(p, b);
  }

  ghost predicate Inv(c: Conf) {
    && Counted(c.p, c.nread) == c.nread
    && (c.halt.Running? ==> Good(c.p, c.open))
    && (c.halt.Stopped? ==> Good(c.p, c.open) && c.open.None?)
    && (c.halt.Failed? ==> !c.p.errno.OK? && !c.p.errno.INVALID_INTERNAL_STATE?)
  }

  lemma ActedParts(c: Conf, o: Out, b: char)
    ensures Acted(c, o, b).p == o.p
    ensures Acted(c, o, b).open == OpenAfter(c.open, o)
    ensures Acted(c, o, b).count == c.count && Acted(c, o, b).halt == c.halt
  {
    hide Push, PushAll;
  }

  lemma ApplyKeepsInv(c: Conf, b: char)
    requires Inv(c) && c.halt.Running?
    ensures Inv(Apply(c, Dispatch(c.p, b), b))
  {
    hide Dispatch, Good, Push, Acted;
    var o := Dispatch(c.p, b);
    DispatchOk(c.p, c.open, b);
    ActedParts(c, o, b);
  }

  /** The invariant holds in every run, of any length and whatever the bytes. */
  lemma {:induction false} RunKeepsInv(c: Conf, bs: string)
    requires Inv(c)
    ensures Inv(Run(c, bs))
    decreases |bs|, Rank(c.p.state)
  {
    hide Dispatch, Apply, Inv, Rank;
    if bs != [] && c.halt == Running {
      var o := Dispatch(c.p, bs[0]);
      ApplyKeepsInv(c, bs[0]);
      AgainLowersRank(c.p, bs[0]);
      ApplyKeepsState(c, o, bs[0]);
      RunKeepsInv(Apply(c, o, bs[0]), if o.ctl == Again then bs else bs[1..]);
    }
  }
}
