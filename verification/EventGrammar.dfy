/** The order in which callbacks are made. */
module EventGrammar {
  import opened Chars
  import opened Options
  import opened ParserTypes
  import opened Transition
  import opened ParserRun
  import opened ParserInvariant
  import opened Execute

  /** The states of an automaton for the callback streams of a parser:
      ( message_begin (url | reason?) (field value)* headers_complete
        (body? | (chunk_header body chunk_complete)* chunk_header (field value)* chunk_complete)
        message_complete )*
      where a request has a url and a response may have a reason. */
  datatype Place =
    | Idle | Begun | GotUrl | GotReason | GotField | GotValue | Complete | GotBody
    | ChunkOpen | ChunkBody | ChunkEnd | Trailer | TrailField | TrailValue | Ended
    | Reject

  function After(req: bool, g: Place, e: Event): Place {
    match g
    case Idle => if e.MessageBegin? then Begun else Reject
    case Begun =>
      if req then if e.Data? && e.kind.Url? then GotUrl else Reject
      else if e.Data? && e.kind.Reason? then GotReason
      else AfterHead(e)
    case GotUrl => AfterHead(e)
    case GotReason => AfterHead(e)
    case GotField => if e.Data? && e.kind.Value? then GotValue else Reject
    case GotValue => AfterHead(e)
    case Complete => if e.Data? && e.kind.Body? then GotBody else if e.MessageComplete? then Idle else AfterChunk(e)
    case GotBody => if e.MessageComplete? then Idle else Reject
    case ChunkOpen => if e.Data? && e.kind.Body? then ChunkBody else Reject
    case ChunkBody => if e.ChunkComplete? then ChunkEnd else Reject
    case ChunkEnd => AfterChunk(e)
    case Trailer => AfterTrailer(e)
    case TrailField => if e.Data? && e.kind.Value? then TrailValue else Reject
    case TrailValue => AfterTrailer(e)
    case Ended => if e.MessageComplete? then Idle else Reject
    case Reject => Reject
  }

  function AfterHead(e: Event): Place {
    if e.Data? && e.kind.Field? then GotField else if e.HeadersComplete? then Complete else Reject
  }

  function AfterChunk(e: Event): Place {
    if e.ChunkHeader? && e.length == 0 then Trailer
    else if e.ChunkHeader? && e.length > 0 then ChunkOpen
    else Reject
  }

  function AfterTrailer(e: Event): Place {
    if e.Data? && e.kind.Field? then TrailField else if e.ChunkComplete? then Ended else Reject
  }

  function Where(req: bool, t: seq<Event>): Place {
    if t == [] then Idle else After(req, Where(req, t[..|t| - 1]), t[|t| - 1])
  }

  /** A place reached by data of the given kind. */
  predicate Inside(g: Place, k: DataKind) {
    match g
    case GotUrl => k.Url?
    case GotReason => k.Reason?
    case GotField => k.Field?
    case TrailField => k.Field?
    case GotValue => k.Value?
    case TrailValue => k.Value?
    case GotBody => k.Body?
    case ChunkBody => k.Body?
    case _ => false
  }

  /** The effect on the place of an event pushed onto a merged trace. */
  function Pushed(req: bool, g: Place, e: Event): Place {
    if e.Data? && Inside(g, e.kind) then g else After(req, g, e)
  }

  lemma InsideIsLast(req: bool, t: seq<Event>, k: DataKind)
    requires Where(req, t) != Reject
    ensures Inside(Where(req, t), k) <==> t != [] && t[|t| - 1].Data? && t[|t| - 1].kind == k
  {
  }

  lemma AfterIgnoresBytes(req: bool, g: Place, k: DataKind, x: string, y: string)
    ensures After(req, g, Data(k, x)) == After(req, g, Data(k, y))
  {
  }

  lemma WhereAfterPush(req: bool, t: seq<Event>, e: Event)
    requires Where(req, t) != Reject
    ensures Where(req, Push(t, e)) == Pushed(req, Where(req, t), e)
  {
    hide After, Inside;
    if e.Data? {
      InsideIsLast(req, t, e.kind);
    }
    var u := Push(t, e);
    if e.Data? && Inside(Where(req, t), e.kind) {
      assert u[..|u| - 1] == t[..|t| - 1];
      AfterIgnoresBytes(req, Where(req, t[..|t| - 1]), e.kind, t[|t| - 1].bytes, u[|u| - 1].bytes);
      assert t[|t| - 1] == Data(e.kind, t[|t| - 1].bytes);
    } else {
      assert u[..|u| - 1] == t;
    }
  }

  predicate InHead(req: bool, trailing: bool, g: Place) {
    if trailing then g.Trailer? || g.TrailValue?
    else if req then g.GotUrl? || g.GotValue?
    else g.Begun? || g.GotReason? || g.GotValue?
  }

  /** The places of the automaton that can meet each state of the parser. */
  predicate Fits(req: bool, s: State, trailing: bool, open: Option<DataKind>, g: Place) {
    match s
    case Beginning(b) => if b.PreStartReqOrRes? || b.PreStartRes? || b.PreStartReq? then g.Idle? else g.Begun?
    case StatusLine(l) =>
      (g.Begun? && open.None?) || ((l.ResStatus? || l.ResLineAlmostDone?) && g.GotReason?)
    case RequestLine(r) => if r.ReqMethod? || r.ReqSpacesBeforeUrl? then g.Begun? else g.GotUrl?
    case InUrl(_) => g.GotUrl?
    case InField(f) =>
      if f.HeaderFieldStart? then InHead(req, trailing, g) else if trailing then g.TrailField? else g.GotField?
    case InValue(v) =>
      if v.HeaderValueStart? && (if trailing then g.TrailField? else g.GotField?) then true
      else if trailing then g.TrailValue? else g.GotValue?
    case AtEnd(e) => if e.HeadersAlmostDone? then InHead(req, trailing, g) else g.Complete?
    case InChunkSize(_) => g.Complete? || g.ChunkEnd?
    case InBody(y) =>
      (match y
       case ChunkData => g.ChunkBody? || (g.ChunkOpen? && open.None?)
       case ChunkDataAlmostDone => g.ChunkBody?
       case ChunkDataDone => g.ChunkBody?
       case MessageDone => if trailing then g.Ended? else g.GotBody?
       case _ => g.GotBody? || (g.Complete? && open.None?))
    case Unhandled => false
  }

  /** The place after one pass of the switch. */
  function PassPlace(req: bool, g: Place, open: Option<DataKind>, o: Out): Place {
    var g1 := if o.mark.Some? && open.None? then Pushed(req, g, Data(o.mark.value, "")) else g;
    var g2 := if o.flush.Through? then Pushed(req, g1, Data(o.flush.kind, "x")) else g1;
    if |o.calls| == 1 then Pushed(req, g2, o.calls[0]) else g2
  }

  predicate FitsAfter(req: bool, g: Place, open: Option<DataKind>, o: Out) {
    && |o.calls| <= 1
    && (o.ctl.Fail? ==> o.mark.None? && o.flush.Keep? && o.calls == [])
    && (!o.ctl.Fail? ==> Fits(req, o.p.state, o.p.msg.trailing, OpenAfter(open, o), PassPlace(req, g, open, o)))
  }

  predicate AtPlace(req: bool, p: Parser, open: Option<DataKind>, g: Place) {
    && GoodOpen(p.state, open) && GoodKind(p.state, p.msg) && GoodLength(p.state, p.contentLength, p.msg)
    && Fits(req, p.state, p.msg.trailing, open, g)
    && !p.msg.kind.Both? && p.msg.kind.Request? == req
  }

  lemma FitsInStart(req: bool, p: Parser, open: Option<DataKind>, g: Place, b: char)
    requires p.state.Beginning? && AtPlace(req, p, open, g)
    ensures FitsAfter(req, g, open, DispatchStart(p, b))
  {
  }

  lemma FitsInStatus(req: bool, p: Parser, open: Option<DataKind>, g: Place, b: char)
    requires p.state.StatusLine? && AtPlace(req, p, open, g)
    ensures FitsAfter(req, g, open, DispatchStatus(p, b))
  {
    hide IsNum;
    match p.state.status
    case ResStatus =>
    case ResStatusCode =>
    case ResLineAlmostDone =>
    case _ =>
  }

  lemma FitsInRequest(req: bool, p: Parser, open: Option<DataKind>, g: Place, b: char)
    requires p.state.RequestLine? && AtPlace(req, p, open, g)
    ensures FitsAfter(req, g, open, DispatchRequest(p, b))
  {
    hide IsNum, MethodByte;
    match p.state.request
    case ReqMethod =>
    case ReqSpacesBeforeUrl =>
    case ReqHttpMinor =>
    case _ =>
  }

  lemma FitsInUrl(req: bool, p: Parser, open: Option<DataKind>, g: Place, b: char)
    requires p.state.InUrl? && AtPlace(req, p, open, g)
    ensures FitsAfter(req, g, open, DispatchUrl(p, b))
  {
  }

  lemma FitsInField(req: bool, p: Parser, open: Option<DataKind>, g: Place, b: char)
    requires p.state.InField? && AtPlace(req, p, open, g)
    ensures FitsAfter(req, g, open, DispatchField(p, b))
  {
    hide IsNum, MethodByte, IsToken, IsHeaderChar, Unhex;
  }

  lemma FitsInValueStart(req: bool, p: Parser, open: Option<DataKind>, g: Place, b: char)
    requires p.state == InValue(HeaderValueStart) && AtPlace(req, p, open, g)
    ensures FitsAfter(req, g, open, DispatchValueStart(p, b))
  {
    hide DispatchValueStart, FitsAfter;
    if b == CR || b == LF { FitsInEmptyValue(req, p, open, g, b); } else { FitsInFirstByte(req, p, open, g, b); }
  }

  lemma FitsInEmptyValue(req: bool, p: Parser, open: Option<DataKind>, g: Place, b: char)
    requires p.state == InValue(HeaderValueStart) && AtPlace(req, p, open, g) && (b == CR || b == LF)
    ensures FitsAfter(req, g, open, DispatchValueStart(p, b))
  {
    hide IsNum, Chars.Lower;
  }

  lemma FitsInFirstByte(req: bool, p: Parser, open: Option<DataKind>, g: Place, b: char)
    requires p.state == InValue(HeaderValueStart) && AtPlace(req, p, open, g) && b != CR && b != LF
    ensures FitsAfter(req, g, open, DispatchValueStart(p, b))
  {
    hide IsNum, Chars.Lower;
  }

  lemma FitsInValueBytes(req: bool, p: Parser, open: Option<DataKind>, g: Place, b: char)
    requires p.state == InValue(HeaderValue) && AtPlace(req, p, open, g)
    ensures FitsAfter(req, g, open, DispatchValue(p, b))
  {
    hide IsNum, IsHeaderChar, Chars.Lower;
  }

  lemma FitsInValue(req: bool, p: Parser, open: Option<DataKind>, g: Place, b: char)
    requires p.state.InValue? && AtPlace(req, p, open, g)
    ensures FitsAfter(req, g, open, DispatchHeaderValue(p, b))
  {
    hide DispatchValueStart, DispatchValue;
    match p.state.value
    case HeaderValueStart => FitsInValueStart(req, p, open, g, b);
    case HeaderValue => FitsInValueBytes(req, p, open, g, b);
    case HeaderAlmostDone =>
    case HeaderValueLws =>
  }

  lemma FitsInEnd(req: bool, p: Parser, open: Option<DataKind>, g: Place, b: char)
    requires p.state.AtEnd? && AtPlace(req, p, open, g)
    ensures FitsAfter(req, g, open, DispatchEnd(p, b))
  {
  }

  lemma FitsInChunk(req: bool, p: Parser, open: Option<DataKind>, g: Place, b: char)
    requires p.state.InChunkSize? && AtPlace(req, p, open, g)
    ensures FitsAfter(req, g, open, DispatchChunk(p, b))
  {
    hide IsNum, MethodByte, IsToken, IsHeaderChar, Unhex;
  }

  lemma FitsInBody(req: bool, p: Parser, open: Option<DataKind>, g: Place, b: char)
    requires p.state.InBody? && AtPlace(req, p, open, g)
    ensures FitsAfter(req, g, open, DispatchBody(p, b))
  {
    hide IsNum, MethodByte, IsToken, IsHeaderChar, Unhex;
  }

  lemma FitsDispatch(req: bool, p: Parser, open: Option<DataKind>, g: Place, b: char)
    requires Good(p, open) && AtPlace(req, p, open, g)
    ensures FitsAfter(req, g, open, Dispatch(p, b))
  {
    hide DispatchStart, DispatchStatus, DispatchRequest, DispatchUrl, DispatchField, DispatchHeaderValue, DispatchEnd,
      DispatchChunk, DispatchBody;
    hide GoodOpen, GoodHeader, GoodLength, GoodKind, Fits, PassPlace, OpenAfter;
    match p.state
    case Beginning(_) => FitsInStart(req, p, open, g, b);
    case StatusLine(_) => FitsInStatus(req, p, open, g, b);
    case RequestLine(_) => FitsInRequest(req, p, open, g, b);
    case InUrl(_) => FitsInUrl(req, p, open, g, b);
    case InField(_) => FitsInField(req, p, open, g, b);
    case InValue(_) => FitsInValue(req, p, open, g, b);
    case AtEnd(_) => FitsInEnd(req, p, open, g, b);
    case InChunkSize(_) => FitsInChunk(req, p, open, g, b);
    case InBody(_) => FitsInBody(req, p, open, g, b);
  }

  lemma FitsInside(req: bool, s: State, trailing: bool, open: Option<DataKind>, g: Place)
    requires Fits(req, s, trailing, open, g) && GoodOpen(s, open)
    ensures g != Reject
    ensures open.Some? ==> Inside(g, open.value)
  {
  }

  ghost predicate InGrammar(req: bool, c: Conf) {
    && Inv(c) && Where(req, c.trace) != Reject && (c.open.Some? ==> Where(req, c.made) != Reject)
    && (!c.halt.Failed? ==> AtPlace(req, c.p, c.open, Where(req, c.trace)))
  }

  /** The place after the callbacks of a pass, if the pass makes at most one. */
  lemma WhereAfterPass(req: bool, c: Conf, o: Out, b: char)
    requires |o.calls| <= 1 && Where(req, c.trace) != Reject && Compatible(c.open, o)
    requires PassPlace(req, Where(req, c.trace), c.open, o) != Reject
    ensures Where(req, Acted(c, o, b).trace) == PassPlace(req, Where(req, c.trace), c.open, o)
  {
    hide Push, Where, After, Inside;
    AfterReject(req);
    var g := Where(req, c.trace);
    var c1 := Opened(c.(p := o.p, nread := if o.reset then 0 else c.nread), o.mark);
    if o.mark.Some? {
      WhereAfterPush(req, c.trace, Data(o.mark.value, ""));
    }
    var c2 := Flushed(c1, o.flush, b);
    if o.flush.Through? {
      WhereAfterPush(req, c1.trace, Data(o.flush.kind, [b]));
      PushedIgnoresBytes(req, Where(req, c1.trace), o.flush.kind, [b], "x");
    }
    if |o.calls| == 1 {
      WhereAfterPush(req, c2.trace, o.calls[0]);
      assert o.calls == [o.calls[0]];
      assert PushAll(c2.trace, o.calls) == PushAll(Push(c2.trace, o.calls[0]), []);
    }
  }

  lemma AfterReject(req: bool)
    ensures forall e :: Pushed(req, Reject, e) == Reject
  {
  }

  lemma PushedIgnoresBytes(req: bool, g: Place, k: DataKind, x: string, y: string)
    ensures Pushed(req, g, Data(k, x)) == Pushed(req, g, Data(k, y))
  {
    hide After, Inside;
    AfterIgnoresBytes(req, g, k, x, y);
  }

  lemma GrammarStep(req: bool, c: Conf, b: char)
    requires InGrammar(req, c) && c.halt.Running?
    ensures InGrammar(req, Apply(c, Dispatch(c.p, b), b))
  {
    hide Dispatch, GoodOpen, GoodHeader, GoodLength, GoodKind, Fits, Where, Push, PushAll, Acted, PassPlace, Pushed;
    var o := Dispatch(c.p, b);
    var g := Where(req, c.trace);
    DispatchOk(c.p, c.open, b);
    ApplyKeepsInv(c, b);
    FitsDispatch(req, c.p, c.open, g, b);
    ActedParts(c, o, b);
    ActedMade(c, o, b);
    var a := Acted(c, o, b);
    if o.ctl.Fail? {
      FailKeepsTrace(c, o, b);
    } else {
      FitsInside(req, o.p.state, o.p.msg.trailing, a.open, PassPlace(req, g, c.open, o));
      WhereAfterPass(req, c, o, b);
      if a.open.Some? {
        WhereAfterPush(req, a.trace, Data(a.open.value, [b]));
        assert Pushed(req, Where(req, a.trace), Data(a.open.value, [b])) == Where(req, a.trace) by {
          PushedInside(req, Where(req, a.trace), a.open.value, [b]);
        }
      }
    }
  }

  lemma ActedMade(c: Conf, o: Out, b: char)
    ensures Acted(c, o, b).open.Some? ==> Acted(c, o, b).made == if c.open.Some? then c.made else c.trace
  {
    hide Push, PushAll;
  }

  lemma PushedInside(req: bool, g: Place, k: DataKind, s: string)
    requires Inside(g, k)
    ensures Pushed(req, g, Data(k, s)) == g
  {
  }

  lemma FailKeepsTrace(c: Conf, o: Out, b: char)
    requires o.mark.None? && o.flush.Keep? && o.calls == []
    ensures Acted(c, o, b).trace == c.trace
  {
  }

  /** Every run of a request or response parser, over any number of messages and whatever the bytes,
      makes its callbacks in an order that the automaton accepts. */
  lemma {:induction false} RunInGrammar(req: bool, c: Conf, bs: string)
    requires InGrammar(req, c)
    ensures InGrammar(req, Run(c, bs))
    decreases |bs|, Rank(c.p.state)
  {
    hide Dispatch, Apply, InGrammar, Rank;
    if bs != [] && c.halt == Running {
      var o := Dispatch(c.p, bs[0]);
      GrammarStep(req, c, bs[0]);
      AgainLowersRank(c.p, bs[0]);
      ApplyKeepsState(c, o, bs[0]);
      RunInGrammar(req, Apply(c, o, bs[0]), if o.ctl == Again then bs else bs[1..]);
    }
  }

  lemma EntryFits(req: bool, s: State, trailing: bool, open: Option<DataKind>, g: Place)
    requires Fits(req, s, trailing, open, g) && GoodOpen(s, open) && (s.StatusLine? ==> !req)
    ensures var k := EntryMark(s);
            var g' := if k.Some? then Pushed(req, g, Data(k.value, "")) else g;
            GoodOpen(s, k) && Fits(req, s, trailing, k, g') && g' != Reject
  {
  }

  lemma ResumeInGrammar(req: bool, c: Conf)
    requires InGrammar(req, c) && c.halt.Running?
    ensures InGrammar(req, Resume(c))
  {
    hide GoodOpen, GoodHeader, GoodLength, Fits, Where, Push, Pushed, EntryMark;
    EntryFits(req, c.p.state, c.p.msg.trailing, c.open, Where(req, c.trace));
    var k := EntryMark(c.p.state);
    if k.Some? {
      WhereAfterPush(req, c.trace, Data(k.value, ""));
    }
  }

  lemma ExitInGrammar(req: bool, c: Conf)
    requires InGrammar(req, c)
    ensures InGrammar(req, Exit(c))
  {
    hide GoodOpen, GoodHeader, GoodLength, GoodKind, Fits, Where;
  }

  /** The messages begun and not completed. */
  function Begins(t: seq<Event>): int {
    if t == [] then 0
    else Begins(t[..|t| - 1]) + (if t[|t| - 1].MessageBegin? then 1 else if t[|t| - 1].MessageComplete? then -1 else 0)
  }

  /** Each message that begins ends before the next begins: at every point of an accepted trace at most one message
      is under way, and none exactly where the automaton is idle. */
  lemma {:induction false} MessagesAlternate(req: bool, t: seq<Event>, n: nat)
    requires Where(req, t) != Reject && n <= |t|
    ensures Where(req, t[..n]) != Reject && Begins(t[..n]) == if Where(req, t[..n]).Idle? then 0 else 1
    decreases |t|
  {
    var m := |t| - 1;
    if t == [] {
    } else if n <= m {
      assert t[..m][..n] == t[..n];
      MessagesAlternate(req, t[..m], n);
    } else {
      assert t[..n] == t;
      MessagesAlternate(req, t[..m], m);
      assert t[..m][..m] == t[..m];
    }
  }
}
