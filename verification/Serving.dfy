/** What a server gets to see: requests on a connection, in whatever pieces they arrive. */
module Serving {
  import opened ParserTypes
  import opened ParserRun
  import opened Execute
  import opened AnyCut
  import opened ParserCalls
  import opened Numbers
  import opened HeaderLines
  import opened HeaderBlocks
  import opened StatusLines
  import opened Messages

  /** A parser of requests between two messages. */
  predicate BetweenRequests(s: Object) {
    s.p.errno.OK? && s.p.state == Beginning(PreStartReq) && s.p.msg.kind.Request?
  }

  lemma StartIsReady(s: Object)
    requires BetweenRequests(s)
    ensures ReadyForRequest(Resume(Start(s))) && Resume(Start(s)).p == s.p && Resume(Start(s)).trace == s.calls
  {
  }

  lemma ReadyEnds(c: Conf)
    requires ReadyForRequest(c) && c.p.errno.OK?
    ensures BetweenRequests(ObjectOf(c)) && ObjectOf(c).calls == c.trace && !Drops(c)
  {
  }

  /** Any number of requests, in any pieces: the calls of the parser make the callbacks of these requests, one after the
      other, and leave it between two requests. It is asked that the headers keep to the limit and that no header value
      goes on after a bare CR. */
  lemma RequestsInPieces(s: Object, rs: seq<RequestMessage>, buffers: seq<string>)
    requires Sane(s) && BetweenRequests(s) && Pipelined(rs, s.p.msg.bodiless) && rs != [] && !LeavesHttp(rs[|rs| - 1])
    requires Regular(Start(s), RequestsText(rs)) && NeverLapses(Resume(Start(s)), RequestsText(rs)) && IsCut(buffers, RequestsText(rs))
    ensures var t := ExecutedAll(s, buffers);
            && t.calls == PushAll(s.calls, RequestsEvents(rs)) && BetweenRequests(t)
  {
    hide Run, PushAll, Sane, Pipelined, LeavesHttp, Regular, NeverLapses, IsCut, RequestsText, RequestsEvents, Resume,
      Start, Executed, ExecutedAll, ReadyForRequest, Drops;
    var c, bs := Resume(Start(s)), RequestsText(rs);
    StartIsReady(s);
    RequestsRoundTrip(c, rs);
    var d := Run(c, bs);
    ReadyIs(d);
    CutCalls(s, bs);
    ReadyEnds(d);
    SaneStarts(s);
    WholeFits(Start(s), bs);
    RegularIsSome(Start(s), bs);
    OneCall(s, bs);
  }

  lemma ReadyIs(c: Conf)
    requires ReadyForRequest(c)
    ensures !c.halt.Stopped?
  {
  }

  lemma RegularIsSome(c: Conf, bs: string)
    requires Regular(c, bs)
    ensures bs != ""
  {
    hide HeadersFit;
  }

  /** The end of the stream between two requests is in order: it makes no callback, and is no error. */
  lemma EndBetweenRequests(s: Object, rs: seq<RequestMessage>, buffers: seq<string>)
    requires Sane(s) && BetweenRequests(s) && Pipelined(rs, s.p.msg.bodiless) && rs != [] && !LeavesHttp(rs[|rs| - 1])
    requires Regular(Start(s), RequestsText(rs)) && NeverLapses(Resume(Start(s)), RequestsText(rs)) && IsCut(buffers, RequestsText(rs))
    ensures var t := ExecutedAll(s, buffers); Executed(t, "") == (t, 0)
  {
    hide Run, PushAll, Sane, Pipelined, LeavesHttp, Regular, NeverLapses, IsCut, RequestsText, RequestsEvents, Resume, Start, ExecutedAll;
    RequestsInPieces(s, rs, buffers);
  }

  /** In the middle of a body it is an error: what has arrived of the body has been reported, and the message is not complete. */
  lemma EndInsideBody(s: Object, r: RequestMessage, part: string)
    requires Sane(s) && BetweenRequests(s) && RequestOk(r, s.p.msg.bodiless) && r.body.Plain?
    requires part < r.body.data && part != "" && Regular(Start(s), HeadText(r) + part)
    ensures var t := Executed(s, HeadText(r) + part).0;
            && t.calls == PushAll(s.calls, HeadEvents(r) + [Data(Body, part)]) && t.p.errno.OK?
            && Executed(t, "").1 == 1 && Executed(t, "").0.p.errno.INVALID_EOF_STATE? && Executed(t, "").0.calls == t.calls
  {
    hide Run, PushAll, Push, Sane, RequestOk, Regular, HeadText, HeadEvents, Resume, Start, Exit;
    var c, bs := Resume(Start(s)), HeadText(r) + part;
    StartIsReady(s);
    RunIntoBody(c, r, part);
    SaneStarts(s);
    WholeFits(Start(s), bs);
    OneCall(s, bs);
    InsideBody(Run(c, bs));
  }

  lemma InsideBody(c: Conf)
    requires c.halt.Running? && c.p.errno.OK? && c.p.state == InBody(BodyIdentity)
    ensures var t := ObjectOf(c);
            t.calls == c.trace && t.p == c.p && Executed(t, "").1 == 1 && Executed(t, "").0.p.errno.INVALID_EOF_STATE? && Executed(t, "").0.calls == t.calls
  {
  }

  /** A body that nothing delimits is complete when the stream ends. */
  lemma EndOfUndelimited(s: Object, o: Status, ls: seq<Line>, eol: string, data: string)
    requires Sane(s) && s.p.errno.OK? && s.p.state == Beginning(PreStartRes) && s.p.msg.kind.Response? && s.p.msg.verb != CONNECT
    requires !s.p.msg.bodiless && StatusOk(o) && LinesOk(ls) && IsEol(eol) && data != ""
    requires !BodyIsAnnounced(DecVal(o.code)) && !AnyChunked(ls) && !AnyUpgrade(ls) && LengthOf(ls, -1) == -1
    requires Regular(Start(s), StatusText(o) + (LinesText(ls) + eol) + data)
    ensures var t := Executed(s, StatusText(o) + (LinesText(ls) + eol) + data).0;
            && t.calls == PushAll(s.calls, StatusEvents(o) + (LinesEvents(ls) + [HeadersComplete] + [Data(Body, data)]))
            && Executed(t, "") == (t.(calls := Push(t.calls, MessageComplete)), 0)
  {
    hide Run, PushAll, Push, Sane, Regular, StatusText, StatusEvents, StatusOk, LinesText, LinesEvents, LinesOk, IsEol,
      LengthOf, AnyChunked, AnyUpgrade, DecVal, Resume, Start, Exit;
    var c, bs := Resume(Start(s)), StatusText(o) + (LinesText(ls) + eol) + data;
    StartIsReadyForResponse(s);
    UndelimitedRoundTrip(c, o, ls, eol, data);
    RegularIsSome(Start(s), bs);
    SaneStarts(s);
    WholeFits(Start(s), bs);
    OneCall(s, bs);
    InsideUndelimited(Run(c, bs));
  }

  lemma StartIsReadyForResponse(s: Object)
    requires s.p.errno.OK? && s.p.state == Beginning(PreStartRes) && s.p.msg.kind.Response? && s.p.msg.verb != CONNECT
    ensures ReadyForResponse(Resume(Start(s))) && Resume(Start(s)).p == s.p && Resume(Start(s)).trace == s.calls
  {
  }

  lemma InsideUndelimited(c: Conf)
    requires c.halt.Running? && c.p.errno.OK? && c.p.state == InBody(BodyIdentityEof)
    ensures var t := ObjectOf(c);
            t.calls == c.trace && t.p == c.p && Executed(t, "") == (t.(calls := Push(t.calls, MessageComplete)), 0)
  {
    hide Push;
  }
}
