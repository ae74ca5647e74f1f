/** Where the body of a message starts, and which body it is: the blank line behind the headers. */
module Framing {
  import opened Options
  import opened ParserTypes
  import opened Transition
  import opened ParserRun
  import opened Execute
  import opened Walk
  import opened Chars
  import opened HeaderLines
  import opened HeaderBlocks

  /** Behind the request or status line. */
  predicate AtHead(c: Conf) {
    && c.halt.Running? && c.open.None? && c.p.state == InField(HeaderFieldStart) && c.p.contentLength == -1
    && c.p.msg == Cleared(c.p.msg)
  }

  /** A request has no body unless it says so; neither have some responses. */
  predicate BodyMustBeAnnounced(m: Message) {
    m.kind.Request? || 100 <= m.status <= 199 || m.status == 204 || m.status == 304
  }

  /** The parser behind the blank line, but for its state. */
  predicate Framed(q: Parser, p: Parser, ls: seq<Line>)
    requires LinesOk(ls)
  {
    q == p.(state := q.state, headerState := q.headerState, index := q.index, contentLength := LengthOf(ls, -1),
            msg := p.msg.(chunked := AnyChunked(ls), upgradeFlag := AnyUpgrade(ls), skipBody := p.msg.bodiless,
                          upgrade := AnyUpgrade(ls) || p.msg.verb == CONNECT))
  }

  /** Nothing but a complete message is behind the headers; the count of header bytes starts anew. */
  predicate Over(d: Conf, m: Message, trace: seq<Event>, halt: Halt) {
    d.p.state == StartState(m) && d.trace == Push(trace, MessageComplete) && d.halt == halt && d.nread <= 1
  }

  predicate Expects(d: Conf, s: State, trace: seq<Event>) {
    d.p.state == s && d.trace == trace && d.halt.Running? && d.nread <= 1
  }

  lemma DoneDispatch(p: Parser)
    requires p.state == AtEnd(HeadersDone)
    ensures Dispatch(p, LF) == DispatchHeadersDone(p)
  {
    hide DispatchHeadersDone;
  }

  lemma StepOver(c: Conf, ctl: Control)
    requires c.halt.Running? && c.open.None? && Dispatch(c.p, LF) == Finished(c.p, ctl) && (ctl.Next? || ctl.Stop?)
    ensures var d := Run(c, [LF]);
            && d.p == c.p.(state := StartState(c.p.msg)) && d.open.None? && d.trace == Push(c.trace, MessageComplete)
            && d.count == c.count + 1 && d.halt == (if ctl.Stop? then Stopped else Running) && d.nread <= 1
  {
    hide Dispatch, Push;
    RunOne(c, LF);
    PushOne(c.trace, MessageComplete);
  }

  lemma StepBody(c: Conf, s: State)
    requires c.halt.Running? && c.open.None? && Dispatch(c.p, LF) == Go(c.p.(state := s)).(reset := true)
    ensures At(Run(c, [LF]), c.p.(state := s), None, c.trace, c.count + 1) && Run(c, [LF]).nread <= 1
  {
    hide Dispatch, Push;
    RunOne(c, LF);
    PushNone(c.trace);
  }

  /** The byte that ends the headers, by what they announced. */
  lemma StepDone(c: Conf)
    requires c.halt.Running? && c.open.None? && c.p.state == AtEnd(HeadersDone) && c.p.contentLength >= -1
    ensures var d, m, n := Run(c, [LF]), c.p.msg, c.p.contentLength;
            var leaves := m.verb == CONNECT || m.skipBody || (!m.chunked && n <= 0);
            && d.p == c.p.(state := d.p.state) && d.open.None? && d.count == c.count + 1
            && (m.upgrade && leaves ==> Over(d, m, c.trace, Stopped))
            && (!(m.upgrade && leaves) && m.skipBody ==> Over(d, m, c.trace, Running))
            && (!(m.upgrade && leaves) && !m.skipBody && m.chunked ==> Expects(d, InChunkSize(ChunkSizeStart), c.trace))
            && (!m.skipBody && !m.chunked && n > 0 && !(m.upgrade && leaves) ==> Expects(d, InBody(BodyIdentity), c.trace))
            && (!m.upgrade && !m.skipBody && !m.chunked && n == 0 ==> Over(d, m, c.trace, Running))
            && (!m.upgrade && !m.skipBody && !m.chunked && n == -1 ==>
                  if BodyMustBeAnnounced(m) then Over(d, m, c.trace, Running) else Expects(d, InBody(BodyIdentityEof), c.trace))
  {
    hide Dispatch, Push, Run;
    DoneDispatch(c.p);
    var o := DispatchHeadersDone(c.p);
    if o.ctl.Stop? || o.calls != [] { StepOver(c, o.ctl); } else { StepBody(c, o.p.state); }
  }

  /** How the end of the headers frames the body. CONNECT leaves HTTP, and so does an upgrade without a body; a callback
      can announce that there is no body; else chunked framing counts whatever Content-Length says, then Content-Length,
      and without either only a response may have a body, which runs to the end of the stream. */
  lemma HeadFrames(c: Conf, ls: seq<Line>, eol: string)
    requires AtHead(c) && LinesOk(ls) && IsEol(eol)
    ensures var text := LinesText(ls) + eol;
            var d, m, length := Run(c, text), c.p.msg, LengthOf(ls, -1);
            var t := PushAll(c.trace, LinesEvents(ls) + [HeadersComplete]);
            && d.open.None? && d.count == c.count + |text| && Framed(d.p, c.p, ls) && length >= -1
            && (m.verb == CONNECT ==> Over(d, m, t, Stopped))
            && (m.verb != CONNECT && m.bodiless ==> Over(d, m, t, if AnyUpgrade(ls) then Stopped else Running))
            && (m.verb != CONNECT && !m.bodiless && AnyChunked(ls) ==> Expects(d, InChunkSize(ChunkSizeStart), t))
            && (m.verb != CONNECT && !m.bodiless && !AnyChunked(ls) && length > 0 ==> Expects(d, InBody(BodyIdentity), t))
            && (m.verb != CONNECT && !m.bodiless && !AnyChunked(ls) && length == 0 ==> Over(d, m, t, if AnyUpgrade(ls) then Stopped else Running))
            && (m.verb != CONNECT && !m.bodiless && !AnyChunked(ls) && length == -1 ==>
                  if AnyUpgrade(ls) then Over(d, m, t, Stopped)
                  else if BodyMustBeAnnounced(m) then Over(d, m, t, Running)
                  else Expects(d, InBody(BodyIdentityEof), t))
  {
    hide Dispatch, Push, PushAll, Run, LinesOk, LinesText, LinesEvents, LengthOf, AnyChunked, AnyUpgrade, IsEol;
    RunLines(c, ls);
    LengthIsSane(ls);
    var c1 := Run(c, LinesText(ls));
    var c2 := RunBlank(c1, eol);
    BlankDispatch(c2.p);
    var c3 := StepRedo(c2, [LF], c2.p.(state := AtEnd(HeadersDone), msg := Announced(c2.p.msg)), [HeadersComplete]);
    StepDone(c3);
    RunAppend(c, LinesText(ls), eol);
    PushAllAppend(c.trace, LinesEvents(ls), [HeadersComplete]);
    PushOne(c2.trace, HeadersComplete);
  }

  lemma {:induction false} LengthIsSane(ls: seq<Line>)
    requires LinesOk(ls)
    ensures LengthOf(ls, -1) >= -1
  {
    if ls != [] {
      LinesSnoc(ls);
      LengthIsSane(ls[..|ls| - 1]);
    }
  }
}
