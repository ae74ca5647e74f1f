/** Whole messages: what is written as requests or responses, the parser reads back, message by message. */
module Messages {
  import opened Chars
  import opened Options
  import opened ParserTypes
  import opened Transition
  import opened ParserRun
  import opened Execute
  import opened Numbers
  import opened Walk
  import opened HeaderLines
  import opened HeaderBlocks
  import opened Framing
  import opened ChunkedBody
  import opened RequestTargets
  import opened RequestLines
  import opened StatusLines

  // The body.

  datatype Payload =
    | Nothing
    | Plain(data: string)
    | Chunked(chunks: seq<Chunk>, last: string, ext: string, trailers: seq<Line>, eol: string)

  predicate PayloadOk(b: Payload) {
    match b
    case Nothing => true
    case Plain(data) => data != ""
    case Chunked(ks, last, ext, ts, eol) => (forall k <- ks :: ChunkOk(k)) && HexOf(last, 0) && ExtOk(ext) && LinesOk(ts) && IsEol(eol)
  }

  function PayloadText(b: Payload): string {
    match b
    case Nothing => ""
    case Plain(data) => data
    case Chunked(ks, last, ext, ts, eol) => Encode(ks) + EncodeLine(last, ext) + (LinesText(ts) + eol)
  }

  function PayloadEvents(b: Payload): seq<Event> {
    match b
    case Nothing => [MessageComplete]
    case Plain(data) => [Data(Body, data), MessageComplete]
    case Chunked(ks, _, _, ts, _) => Events(ks) + ([ChunkHeader(0)] + (LinesEvents(ts) + [ChunkComplete, MessageComplete]))
  }

  /** The body is the one that the headers announce: in chunks if they say so, whatever they say of a length; else as long
      as they say; and none if they say nothing, where no body may come unannounced or the connection leaves HTTP. */
  predicate Fits(connect: bool, bodiless: bool, announced: bool, ls: seq<Line>, b: Payload)
    requires LinesOk(ls)
  {
    var length := LengthOf(ls, -1);
    if connect || bodiless then b.Nothing?
    else if AnyChunked(ls) then b.Chunked?
    else if length > 0 then b.Plain? && |b.data| == length
    else b.Nothing? && (length == 0 || AnyUpgrade(ls) || announced)
  }

  /** Behind a message: at the start of the next one, or at the end of HTTP. */
  predicate Behind(d: Conf, p: Parser, leaves: bool) {
    && d.halt == (if leaves then Stopped else Running) && d.open.None? && d.p.state == StartState(p.msg) && d.p.errno == p.errno && d.nread <= 1
    && d.p.msg == p.msg.(chunked := d.p.msg.chunked, trailing := d.p.msg.trailing, upgradeFlag := d.p.msg.upgradeFlag,
                         skipBody := d.p.msg.skipBody, upgrade := leaves)
  }

  lemma RunPayload(c: Conf, b: Payload)
    requires c.halt.Running? && c.open.None? && !b.Nothing? && PayloadOk(b)
    requires if b.Chunked? then c.p.state == InChunkSize(ChunkSizeStart) else c.p.state == InBody(BodyIdentity) && c.p.contentLength == |b.data|
    ensures var d := Run(c, PayloadText(b));
            && Behind(d, c.p, c.p.msg.upgrade)
            && d.trace == PushAll(c.trace, PayloadEvents(b)) && d.count == c.count + |PayloadText(b)|
  {
    hide Dispatch, Push, Apply, Run, EncodeLine, LinesText, LinesEvents, LinesOk, IsEol, Encode, Events, ChunkOk;
    match b
    case Nothing =>
    case Plain(data) =>
      IdentityRoundTrip(c, data);
      HeaderBlocks.PushAllTwo(c.trace, [], Data(Body, data), MessageComplete);
      PushNone(c.trace);
      assert [] + [Data(Body, data), MessageComplete] == PayloadEvents(b);
    case Chunked(ks, last, ext, ts, eol) => ChunkedRoundTrip(c, ks, last, ext, ts, eol);
  }

  /** A head and the body it announces, from behind the request or status line. */
  lemma HeadAndBody(c: Conf, ls: seq<Line>, eol: string, b: Payload)
    requires AtHead(c) && LinesOk(ls) && IsEol(eol) && PayloadOk(b)
    requires Fits(c.p.msg.verb == CONNECT, c.p.msg.bodiless, BodyMustBeAnnounced(c.p.msg), ls, b)
    ensures var text := LinesText(ls) + eol + PayloadText(b);
            var d := Run(c, text);
            && Behind(d, c.p, AnyUpgrade(ls) || c.p.msg.verb == CONNECT) && d.count == c.count + |text|
            && d.trace == PushAll(c.trace, LinesEvents(ls) + [HeadersComplete] + PayloadEvents(b))
  {
    hide Dispatch, Push, PushAll, Apply, Run, LinesText, LinesEvents, LinesOk, IsEol, PayloadOk, LengthOf, AnyChunked, AnyUpgrade;
    HeadFrames(c, ls, eol);
    var text := LinesText(ls) + eol;
    var d := Run(c, text);
    var t := LinesEvents(ls) + [HeadersComplete];
    RunAppend(c, text, PayloadText(b));
    PushAllAppend(c.trace, t, PayloadEvents(b));
    if b.Nothing? {
      RunNothing(d);
      PushOne(PushAll(c.trace, t), MessageComplete);
    } else {
      RunPayload(d, b);
    }
  }

  // Requests.

  datatype RequestMessage = RequestMessage(opening: Opening, lines: seq<Line>, eol: string, body: Payload)

  predicate RequestOk(r: RequestMessage, bodiless: bool) {
    && OpeningOk(r.opening) && !IsOldest(r.opening) && LinesOk(r.lines) && IsEol(r.eol) && PayloadOk(r.body)
    && Fits(r.opening.verb == CONNECT, bodiless, true, r.lines, r.body)
  }

  function RequestText(r: RequestMessage): string {
    OpeningText(r.opening) + (LinesText(r.lines) + r.eol + PayloadText(r.body))
  }

  function RequestEvents(r: RequestMessage): seq<Event> {
    [MessageBegin, Data(Url, TargetText(r.opening.target))] + (LinesEvents(r.lines) + [HeadersComplete] + PayloadEvents(r.body))
  }

  /** The connection leaves HTTP behind this request. */
  predicate LeavesHttp(r: RequestMessage) {
    AnyUpgrade(r.lines) || r.opening.verb == CONNECT
  }

  /** At the start of a request. */
  predicate ReadyForRequest(c: Conf) {
    c.halt.Running? && c.open.None? && c.p.state == Beginning(PreStartReq) && c.p.msg.kind.Request?
  }

  lemma TwoEvents(t: seq<Event>, a: Event, b: Event, es: seq<Event>)
    ensures PushAll(Push(Push(t, a), b), es) == PushAll(t, [a, b] + es)
  {
    hide Push, PushAll;
    PushAllAppend(t, [a, b], es);
    HeaderBlocks.PushAllTwo(t, [], a, b);
    PushNone(t);
    assert [] + [a, b] == [a, b];
  }

  /** What is written as a request is read back: for every method, target and version, any headers, and the body that
      these announce, the target, the headers and the body are reported as they stand, the method and the version are
      stored, and the parser stops behind the last byte, at the start of the next request or at the end of HTTP. */
  lemma RequestRoundTrip(c: Conf, r: RequestMessage)
    requires ReadyForRequest(c) && RequestOk(r, c.p.msg.bodiless)
    ensures var d := Run(c, RequestText(r));
            && d.trace == PushAll(c.trace, RequestEvents(r)) && d.count == c.count + |RequestText(r)| && d.open.None?
            && d.halt == (if LeavesHttp(r) then Stopped else Running) && d.p.state == Beginning(PreStartReq) && d.p.errno == c.p.errno
            && d.p.msg.verb == r.opening.verb && d.p.msg.major == DecVal(r.opening.major) && d.p.msg.minor == DecVal(r.opening.minor)
            && d.p.msg.upgrade == LeavesHttp(r) && d.p.msg.kind == Request && d.p.msg.bodiless == c.p.msg.bodiless && d.nread <= 1
  {
    hide Dispatch, Push, PushAll, Apply, Run, LinesText, LinesEvents, LinesOk, IsEol, PayloadOk, PayloadText,
      PayloadEvents, Fits, AnyUpgrade, OpeningText, TargetText, OpeningOk, IsOldest, DecVal;
    RunRequestLine(c, r.opening);
    var text := OpeningText(r.opening);
    var d := Run(c, text);
    HeadAndBody(d, r.lines, r.eol, r.body);
    RunAppend(c, text, LinesText(r.lines) + r.eol + PayloadText(r.body));
    TwoEvents(c.trace, MessageBegin, Data(Url, TargetText(r.opening.target)), LinesEvents(r.lines) + [HeadersComplete] + PayloadEvents(r.body));
  }

  /** All of a request but its body. */
  function HeadText(r: RequestMessage): string {
    OpeningText(r.opening) + (LinesText(r.lines) + r.eol)
  }

  function HeadEvents(r: RequestMessage): seq<Event> {
    [MessageBegin, Data(Url, TargetText(r.opening.target))] + (LinesEvents(r.lines) + [HeadersComplete])
  }

  lemma RunPart(c: Conf, part: string)
    requires c.halt.Running? && c.open.None? && c.p.state == InBody(BodyIdentity) && 0 < |part| < c.p.contentLength
    ensures var d := Run(c, part);
            d.halt.Running? && d.p == c.p.(contentLength := c.p.contentLength - |part|) && d.trace == Push(c.trace, Data(Body, part))
  {
    hide Dispatch, Apply, Push, Run;
    RunBulk(c, part, "");
    RunNothing(Eaten(c, part));
    assert part + "" == part;
    PushTwice(c.trace, Body, "", part);
    assert "" + part == part;
  }

  /** The head of a request and the first bytes of its body. */
  lemma RunIntoBody(c: Conf, r: RequestMessage, part: string)
    requires ReadyForRequest(c) && RequestOk(r, c.p.msg.bodiless) && r.body.Plain? && part < r.body.data && part != ""
    ensures var d := Run(c, HeadText(r) + part);
            && d.halt.Running? && d.p.state == InBody(BodyIdentity) && d.p.errno == c.p.errno
            && d.trace == PushAll(c.trace, HeadEvents(r) + [Data(Body, part)])
  {
    hide Dispatch, Push, PushAll, Apply, Run, LinesText, LinesEvents, LinesOk, IsEol, PayloadOk, AnyUpgrade, AnyChunked,
      LengthOf, OpeningText, TargetText, OpeningOk, IsOldest, DecVal;
    RunRequestLine(c, r.opening);
    var text, lines := OpeningText(r.opening), LinesText(r.lines) + r.eol;
    var d := Run(c, text);
    HeadFrames(d, r.lines, r.eol);
    var e := Run(d, lines);
    RunPart(e, part);
    RunAppend(c, text, lines);
    RunAppend(c, text + lines, part);
    TwoEvents(c.trace, MessageBegin, Data(Url, TargetText(r.opening.target)), LinesEvents(r.lines) + [HeadersComplete]);
    PushAllAppend(c.trace, HeadEvents(r), [Data(Body, part)]);
    PushOne(e.trace, Data(Body, part));
  }

  // Any number of requests on one connection.

  /** Requests one behind the other; only the last may leave HTTP. */
  predicate Pipelined(rs: seq<RequestMessage>, bodiless: bool) {
    forall i :: 0 <= i < |rs| ==> RequestOk(rs[i], bodiless) && (i < |rs| - 1 ==> !LeavesHttp(rs[i]))
  }

  function RequestsText(rs: seq<RequestMessage>): string {
    if rs == [] then "" else RequestText(rs[0]) + RequestsText(rs[1..])
  }

  function RequestsEvents(rs: seq<RequestMessage>): seq<Event> {
    if rs == [] then [] else RequestEvents(rs[0]) + RequestsEvents(rs[1..])
  }

  /** Requests that are pipelined are read back one by one, each with its own headers and body. */
  lemma {:induction false} RequestsRoundTrip(c: Conf, rs: seq<RequestMessage>)
    requires ReadyForRequest(c) && Pipelined(rs, c.p.msg.bodiless)
    ensures var d := Run(c, RequestsText(rs));
            && d.trace == PushAll(c.trace, RequestsEvents(rs)) && d.count == c.count + |RequestsText(rs)|
            && if rs != [] && LeavesHttp(rs[|rs| - 1]) then d.halt.Stopped? else ReadyForRequest(d) && d.p.errno == c.p.errno
    decreases |rs|
  {
    hide Dispatch, Push, PushAll, Apply, Run, RequestText, RequestEvents, RequestOk, LeavesHttp;
    if rs == [] {
      RunNothing(c);
      PushNone(c.trace);
    } else {
      var r, more := rs[0], rs[1..];
      RequestRoundTrip(c, r);
      var d := Run(c, RequestText(r));
      RunAppend(c, RequestText(r), RequestsText(more));
      PushAllAppend(c.trace, RequestEvents(r), RequestsEvents(more));
      if more == [] {
        assert RequestText(r) + "" == RequestText(r) && RequestEvents(r) + [] == RequestEvents(r);
      } else {
        RequestsRoundTrip(d, more);
      }
    }
  }

  // Requests without headers.

  function OldestEvents(x: Target): seq<Event> {
    [MessageBegin, Data(Url, TargetText(x)), HeadersComplete, MessageComplete]
  }

  predicate ReadOldest(d: Conf, c: Conf, m: Verb, x: Target, n: nat) {
    && d.trace == PushAll(c.trace, OldestEvents(x)) && d.count == c.count + n && d.open.None?
    && d.p.state == Beginning(PreStartReq) && d.p.msg.verb == m && d.p.msg.major == 0 && d.p.msg.minor == 9
    && d.halt == (if m == CONNECT then Stopped else Running) && d.nread <= 1
  }

  lemma FinishOldest(c: Conf, d: Conf, m: Verb, x: Target, n: nat)
    requires c.p.msg.kind.Request? && d.p.msg == Cleared(c.p.msg).(verb := m, major := 0, minor := 9)
    requires At(d, d.p, None, Push(Push(c.trace, MessageBegin), Data(Url, TargetText(x))), c.count + n)
    requires d.p.state == AtEnd(HeadersAlmostDone) && d.p.contentLength == -1
    ensures ReadOldest(Run(d, [LF]), c, m, x, n + 1)
  {
    hide Dispatch, Push, PushAll, Apply, Run, TargetText;
    BlankDispatch(d.p);
    var e := StepRedo(d, [LF], d.p.(state := AtEnd(HeadersDone), msg := Announced(d.p.msg)), [HeadersComplete]);
    StepDone(e);
    TwoEvents(c.trace, MessageBegin, Data(Url, TargetText(x)), [HeadersComplete, MessageComplete]);
    var t := Push(Push(c.trace, MessageBegin), Data(Url, TargetText(x)));
    HeaderBlocks.PushAllTwo(t, [], HeadersComplete, MessageComplete);
    PushNone(t);
    assert [] + [HeadersComplete, MessageComplete] == [HeadersComplete, MessageComplete];
    assert [MessageBegin, Data(Url, TargetText(x))] + [HeadersComplete, MessageComplete] == OldestEvents(x);
  }

  /** An HTTP/0.9 request is over with its first line. */
  lemma OldestRoundTrip(c: Conf, o: Opening)
    requires ReadyForRequest(c) && OpeningOk(o) && IsOldest(o)
    ensures ReadOldest(Run(c, OpeningText(o)), c, o.verb, o.target, |OpeningText(o)|)
  {
    hide Dispatch, Push, PushAll, Apply, Run, TargetText, IsVersion, Spaces, TargetOk, MethodText, VersionText, IsEol, ReadOldest, DecVal;
    RunOpening(c, o);
    var text := MethodText(o.lead, o.verb, o.gap) + (TargetText(o.target) + " ") + VersionText(o);
    var d := RunOldestLineEnd(Run(c, text), o.eol);
    FinishOldest(c, d, o.verb, o.target, |text| + |o.eol| - 1);
    RunAppend(c, text, o.eol);
  }

  /** So is one whose first line ends with the target. */
  lemma VersionlessRoundTrip(c: Conf, lead: string, m: Verb, gap: string, x: Target, eol: string)
    requires ReadyForRequest(c) && LineEnds(lead) && Spaces(gap) && TargetOk(x, m == CONNECT) && !Bare(x.rest) && IsEol(eol)
    ensures var text := MethodText(lead, m, gap) + (TargetText(x) + eol); ReadOldest(Run(c, text), c, m, x, |text|)
  {
    hide Dispatch, Push, PushAll, Apply, Run, TargetText, Spaces, TargetOk, MethodText, ReadOldest, Bare;
    RunMethodText(c, lead, m, gap);
    var text := MethodText(lead, m, gap);
    var d := RunVersionless(Run(c, text), x, eol);
    FinishOldest(c, d, m, x, |text| + |TargetText(x)| + |eol| - 1);
    RunAppend(c, text, TargetText(x) + eol);
  }

  // Responses.

  datatype ResponseMessage = ResponseMessage(status: Status, lines: seq<Line>, eol: string, body: Payload)

  /** Responses that have no body unless it is announced. */
  predicate BodyIsAnnounced(code: nat) {
    100 <= code <= 199 || code == 204 || code == 304
  }

  predicate ResponseOk(r: ResponseMessage, bodiless: bool) {
    && StatusOk(r.status) && LinesOk(r.lines) && IsEol(r.eol) && PayloadOk(r.body)
    && Fits(false, bodiless, BodyIsAnnounced(DecVal(r.status.code)), r.lines, r.body)
  }

  function ResponseText(r: ResponseMessage): string {
    StatusText(r.status) + (LinesText(r.lines) + r.eol + PayloadText(r.body))
  }

  function ResponseEvents(r: ResponseMessage): seq<Event> {
    StatusEvents(r.status) + (LinesEvents(r.lines) + [HeadersComplete] + PayloadEvents(r.body))
  }

  /** At the start of a response. A parser of responses keeps the method it was initialised with, which is not CONNECT. */
  predicate ReadyForResponse(c: Conf) {
    c.halt.Running? && c.open.None? && c.p.state == Beginning(PreStartRes) && c.p.msg.kind.Response? && c.p.msg.verb != CONNECT
  }

  /** What is written as a response is read back: the code and the version are stored, the reason, the headers and the
      body are reported as they stand, and the parser stops behind the last byte. */
  lemma ResponseRoundTrip(c: Conf, r: ResponseMessage)
    requires ReadyForResponse(c) && ResponseOk(r, c.p.msg.bodiless)
    ensures var d := Run(c, ResponseText(r));
            && d.trace == PushAll(c.trace, ResponseEvents(r)) && d.count == c.count + |ResponseText(r)| && d.open.None?
            && d.halt == (if AnyUpgrade(r.lines) then Stopped else Running) && d.p.state == Beginning(PreStartRes) && d.p.errno == c.p.errno
            && d.p.msg.status == DecVal(r.status.code) && d.p.msg.major == DecVal(r.status.major) && d.p.msg.minor == DecVal(r.status.minor)
            && d.p.msg.upgrade == AnyUpgrade(r.lines) && d.p.msg.kind == Response && d.p.msg.verb == c.p.msg.verb && d.p.msg.bodiless == c.p.msg.bodiless && d.nread <= 1
  {
    hide Dispatch, Push, PushAll, Apply, Run, LinesText, LinesEvents, LinesOk, IsEol, PayloadOk, PayloadText,
      PayloadEvents, Fits, AnyUpgrade, StatusText, StatusEvents, StatusOk, DecVal;
    RunStatusLine(c, r.status);
    var text := StatusText(r.status);
    var d := Run(c, text);
    HeadAndBody(d, r.lines, r.eol, r.body);
    RunAppend(c, text, LinesText(r.lines) + r.eol + PayloadText(r.body));
    PushAllAppend(c.trace, StatusEvents(r.status), LinesEvents(r.lines) + [HeadersComplete] + PayloadEvents(r.body));
  }

  predicate Responses(rs: seq<ResponseMessage>, bodiless: bool) {
    forall i :: 0 <= i < |rs| ==> ResponseOk(rs[i], bodiless) && (i < |rs| - 1 ==> !AnyUpgrade(rs[i].lines))
  }

  function ResponsesText(rs: seq<ResponseMessage>): string {
    if rs == [] then "" else ResponseText(rs[0]) + ResponsesText(rs[1..])
  }

  function ResponsesEvents(rs: seq<ResponseMessage>): seq<Event> {
    if rs == [] then [] else ResponseEvents(rs[0]) + ResponsesEvents(rs[1..])
  }

  /** Any number of responses on one connection. */
  lemma {:induction false} ResponsesRoundTrip(c: Conf, rs: seq<ResponseMessage>)
    requires ReadyForResponse(c) && Responses(rs, c.p.msg.bodiless)
    ensures var d := Run(c, ResponsesText(rs));
            && d.trace == PushAll(c.trace, ResponsesEvents(rs)) && d.count == c.count + |ResponsesText(rs)|
            && if rs != [] && AnyUpgrade(rs[|rs| - 1].lines) then d.halt.Stopped? else ReadyForResponse(d) && d.p.errno == c.p.errno
    decreases |rs|
  {
    hide Dispatch, Push, PushAll, Apply, Run, ResponseText, ResponseEvents, ResponseOk, AnyUpgrade;
    if rs == [] {
      RunNothing(c);
      PushNone(c.trace);
    } else {
      var r, more := rs[0], rs[1..];
      ResponseRoundTrip(c, r);
      var d := Run(c, ResponseText(r));
      RunAppend(c, ResponseText(r), ResponsesText(more));
      PushAllAppend(c.trace, ResponseEvents(r), ResponsesEvents(more));
      if more == [] {
        assert ResponseText(r) + "" == ResponseText(r) && ResponseEvents(r) + [] == ResponseEvents(r);
      } else {
        ResponsesRoundTrip(d, more);
      }
    }
  }

  // A response that nothing delimits.

  lemma EofDispatch(p: Parser, x: char)
    requires p.state == InBody(BodyIdentityEof)
    ensures Dispatch(p, x) == Go(p).(mark := Some(Body))
  {
  }

  lemma {:induction false} RunUnlimited(c: Conf, data: string)
    requires c.halt.Running? && c.open.None? && c.p.state == InBody(BodyIdentityEof) && data != ""
    ensures At(Run(c, data), c.p, Some(Body), Push(c.trace, Data(Body, data)), c.count + |data|)
    decreases |data|
  {
    hide Dispatch, Push, Run;
    var n := |data| - 1;
    var x := data[n];
    EofDispatch(c.p, x);
    if n == 0 {
      assert data == [x];
      StepMark(c, x, c.p, Body);
    } else {
      var t := data[..n];
      assert data == t + [x];
      RunUnlimited(c, t);
      RunAppend(c, t, [x]);
      RunOne(Run(c, t), x);
      PushTwice(c.trace, Body, t, [x]);
    }
  }

  /** A response that announces no length, and is of no kind to be without a body, has all the bytes behind its head for
      one; the message is not complete before the stream ends. */
  lemma UndelimitedRoundTrip(c: Conf, o: Status, ls: seq<Line>, eol: string, data: string)
    requires ReadyForResponse(c) && !c.p.msg.bodiless && StatusOk(o) && LinesOk(ls) && IsEol(eol) && data != ""
    requires !BodyIsAnnounced(DecVal(o.code)) && !AnyChunked(ls) && !AnyUpgrade(ls) && LengthOf(ls, -1) == -1
    ensures var text := StatusText(o) + (LinesText(ls) + eol) + data;
            var d := Run(c, text);
            && d.trace == PushAll(c.trace, StatusEvents(o) + (LinesEvents(ls) + [HeadersComplete] + [Data(Body, data)]))
            && d.count == c.count + |text| && d.halt.Running? && d.p.state == InBody(BodyIdentityEof) && d.p.errno == c.p.errno
  {
    hide Dispatch, Push, PushAll, Apply, Run, LinesText, LinesEvents, LinesOk, IsEol, AnyUpgrade, AnyChunked, LengthOf,
      StatusText, StatusEvents, StatusOk, DecVal;
    RunStatusLine(c, o);
    var d := Run(c, StatusText(o));
    HeadFrames(d, ls, eol);
    var e := Run(d, LinesText(ls) + eol);
    RunUnlimited(e, data);
    RunAppend(c, StatusText(o), LinesText(ls) + eol);
    RunAppend(c, StatusText(o) + (LinesText(ls) + eol), data);
    PushOne(e.trace, Data(Body, data));
    PushAllAppend(d.trace, LinesEvents(ls) + [HeadersComplete], [Data(Body, data)]);
    PushAllAppend(c.trace, StatusEvents(o), LinesEvents(ls) + [HeadersComplete] + [Data(Body, data)]);
  }
}
