/** A parser that is not told what it reads finds out from the first two bytes of a message. */
module KindFound {
  import opened Chars
  import opened ParserTypes
  import opened Transition
  import opened ParserRun
  import opened Execute
  import opened HeaderLines
  import opened RequestTargets
  import opened RequestLines
  import opened StatusLines
  import opened Messages
  import opened HeaderBlocks

  /** The parser that has been told. */
  function Told(c: Conf, kind: Kind): Conf
    requires !kind.Both?
  {
    var m := c.p.msg.(kind := kind);
    c.(p := c.p.(state := StartState(m), msg := m))
  }

  lemma UntoldDispatch(p: Parser, x: char)
    ensures p.state == Beginning(PreStartReqOrRes) && (x == CR || x == LF) ==> Dispatch(p, x) == Go(p)
    ensures p.state == Beginning(PreStartReqOrRes) && x != CR && x != LF ==>
              Dispatch(p, x) == Redo(p.(state := Beginning(StartReqOrRes))).(calls := [MessageBegin])
    ensures p.state == Beginning(StartReqOrRes) && x != 'H' ==>
              Dispatch(p, x) == Redo(p.(state := Beginning(StartReq), contentLength := -1, msg := Cleared(p.msg).(kind := Request)))
    ensures p.state == Beginning(StartReqOrRes) && x == 'H' ==> Dispatch(p, x) == Go(Fresh(p, Beginning(ResOrRespH)))
    ensures p.state == Beginning(ResOrRespH) && x == 'E' ==>
              Dispatch(p, x) == Go(p.(state := RequestLine(ReqMethod), index := 2, msg := p.msg.(kind := Request, verb := HEAD)))
    ensures p.state == Beginning(ResOrRespH) && x == 'T' ==> Dispatch(p, x) == Go(p.(state := StatusLine(ResHT), msg := p.msg.(kind := Response)))
  {
  }

  ghost predicate Untold(c: Conf) {
    c.halt.Running? && c.open.None? && c.p.state == Beginning(PreStartReqOrRes)
  }

  lemma GoStep(c: Conf, bs: string, q: Parser) returns (d: Conf)
    requires c.halt.Running? && c.open.None? && bs != "" && Dispatch(c.p, bs[0]) == Go(q)
    ensures Run(c, bs) == Run(d, bs[1..]) && d == c.(p := q, nread := Counted(q, c.nread + 1), count := c.count + 1)
  {
    hide Dispatch, Push;
    RunStep(c, bs);
    d := Apply(c, Dispatch(c.p, bs[0]), bs[0]);
    PushNone(c.trace);
  }

  lemma AgainStep(c: Conf, bs: string, q: Parser, begins: bool) returns (d: Conf)
    requires c.halt.Running? && c.open.None? && bs != ""
    requires Dispatch(c.p, bs[0]) == if begins then Redo(q).(calls := [MessageBegin]) else Redo(q)
    ensures Run(c, bs) == Run(d, bs)
    ensures d == c.(p := q, nread := Counted(q, c.nread), trace := if begins then Push(c.trace, MessageBegin) else c.trace)
  {
    hide Dispatch, Push;
    RunStep(c, bs);
    d := Apply(c, Dispatch(c.p, bs[0]), bs[0]);
    PushNone(c.trace);
    PushOne(c.trace, MessageBegin);
  }

  lemma SameBehindLead(c: Conf, lead: string, bs: string, kind: Kind)
    requires Untold(c) && LineEnds(lead) && !kind.Both?
    ensures Untold(Skipped(c, lead)) && Run(c, lead + bs) == Run(Skipped(c, lead), bs)
    ensures Run(Told(c, kind), lead + bs) == Run(Told(Skipped(c, lead), kind), bs)
  {
    hide Dispatch, Run, Idle;
    var k := Told(c, kind);
    forall x <- lead
      ensures Dispatch(c.p, x) == Go(c.p) && Dispatch(k.p, x) == Go(k.p)
    {
      UntoldDispatch(c.p, x);
      LeadDispatches(k.p, x);
    }
    IdleBecause(c.p, lead);
    IdleBecause(k.p, lead);
    RunIdle(c, lead, bs);
    RunIdle(k, lead, bs);
  }

  lemma LeadDispatches(p: Parser, x: char)
    requires p.state == Beginning(PreStartReq) || p.state == Beginning(PreStartRes)
    ensures x == CR || x == LF ==> Dispatch(p, x) == Go(p)
  {
  }

  lemma StartBytes(m: Verb)
    ensures |VerbString(m)| >= 2 && VerbString(m)[0] != CR && VerbString(m)[0] != LF
    ensures VerbString(m)[0] == 'H' ==> m == HEAD && VerbString(m)[1] == 'E'
  {
  }

  /** A word that starts with another letter than H. */
  lemma SameWord(c: Conf, bs: string)
    requires Untold(c) && bs != "" && bs[0] != CR && bs[0] != LF && bs[0] != 'H'
    ensures Run(c, bs) == Run(Told(c, Request), bs)
  {
    hide Dispatch, Run, Push, FirstLetter, IsAlpha;
    var x := bs[0];
    UntoldDispatch(c.p, x);
    var c1 := AgainStep(c, bs, c.p.(state := Beginning(StartReqOrRes)), true);
    UntoldDispatch(c1.p, x);
    var q := c1.p.(state := Beginning(StartReq), contentLength := -1, msg := Cleared(c1.p.msg).(kind := Request));
    var c2 := AgainStep(c1, bs, q, false);
    var k := Told(c, Request);
    LeadDispatch(k.p, x);
    var k1 := AgainStep(k, bs, k.p.(state := Beginning(StartReq)), true);
    SameStart(c2.p, k1.p, x);
    RunStep(c2, bs);
    RunStep(k1, bs);
    SameApply(c2, k1, x);
  }

  /** The state that a request starts in does not look at what the last message left. */
  lemma SameStart(p: Parser, q: Parser, x: char)
    requires p.state == Beginning(StartReq) && q.state == Beginning(StartReq)
    requires p == q.(contentLength := -1, msg := Cleared(q.msg))
    ensures Dispatch(p, x) == Dispatch(q, x)
  {
  }

  lemma SameApply(c: Conf, k: Conf, x: char)
    requires c == k.(p := c.p) && Dispatch(c.p, x) == Dispatch(k.p, x)
    ensures Apply(c, Dispatch(c.p, x), x) == Apply(k, Dispatch(k.p, x), x)
  {
    hide Dispatch, Push;
  }

  lemma HeadDispatch(p: Parser)
    ensures p.state == Beginning(StartReq) ==> Dispatch(p, 'H') == Go(Method(p, HEAD, 1, RequestLine(ReqMethod)))
    ensures p.state == RequestLine(ReqMethod) && p.index == 1 && p.msg.verb == HEAD ==> Dispatch(p, 'E') == Go(p.(index := 2))
  {
  }

  /** HEAD, the one method that starts like a response. */
  lemma SameHead(c: Conf, bs: string)
    requires Untold(c) && |bs| >= 2 && bs[0] == 'H' && bs[1] == 'E'
    ensures Run(c, bs) == Run(Told(c, Request), bs)
  {
    hide Dispatch, Run, Push;
    UntoldDispatch(c.p, 'H');
    var c1 := AgainStep(c, bs, c.p.(state := Beginning(StartReqOrRes)), true);
    UntoldDispatch(c1.p, 'H');
    var c2 := GoStep(c1, bs, Fresh(c1.p, Beginning(ResOrRespH)));
    UntoldDispatch(c2.p, 'E');
    var q := c2.p.(state := RequestLine(ReqMethod), index := 2, msg := c2.p.msg.(kind := Request, verb := HEAD));
    var c3 := GoStep(c2, bs[1..], q);
    var k := Told(c, Request);
    LeadDispatch(k.p, 'H');
    var k1 := AgainStep(k, bs, k.p.(state := Beginning(StartReq)), true);
    HeadDispatch(k1.p);
    var k2 := GoStep(k1, bs, Method(k1.p, HEAD, 1, RequestLine(ReqMethod)));
    HeadDispatch(k2.p);
    var k3 := GoStep(k2, bs[1..], k2.p.(index := 2));
    assert c3 == k3;
  }

  /** A response. */
  lemma SameResponse(c: Conf, bs: string)
    requires Untold(c) && |bs| >= 2 && bs[0] == 'H' && bs[1] == 'T'
    ensures Run(c, bs) == Run(Told(c, Response), bs)
  {
    hide Dispatch, Run, Push;
    UntoldDispatch(c.p, 'H');
    var c1 := AgainStep(c, bs, c.p.(state := Beginning(StartReqOrRes)), true);
    UntoldDispatch(c1.p, 'H');
    var c2 := GoStep(c1, bs, Fresh(c1.p, Beginning(ResOrRespH)));
    UntoldDispatch(c2.p, 'T');
    var q := c2.p.(state := StatusLine(ResHT), msg := c2.p.msg.(kind := Response));
    var c3 := GoStep(c2, bs[1..], q);
    var k := Told(c, Response);
    StartDispatch(k.p, 'H');
    var k1 := AgainStep(k, bs, k.p.(state := Beginning(StartRes)), true);
    StartDispatch(k1.p, 'H');
    var k2 := GoStep(k1, bs, Fresh(k1.p, StatusLine(ResH)));
    NameDispatch(k2.p, 'T');
    var k3 := GoStep(k2, bs[1..], k2.p.(state := StatusLine(ResHT)));
    assert c3 == k3;
  }

  /** A request, whatever its method, is read as by a parser of requests. */
  lemma RequestIsFound(c: Conf, r: RequestMessage)
    requires Untold(c) && RequestOk(r, c.p.msg.bodiless)
    ensures Run(c, RequestText(r)) == Run(Told(c, Request), RequestText(r))
  {
    hide Dispatch, Run, Untold, VerbString, TargetText, VersionText, RequestOk, Told;
    var o := r.opening;
    var bs := RequestText(r)[|o.lead|..];
    assert LineEnds(o.lead) by { WellFormedRequest(r, c.p.msg.bodiless); }
    StartBytes(o.verb);
    assert RequestText(r) == o.lead + bs;
    assert bs[0] == VerbString(o.verb)[0] && bs[1] == VerbString(o.verb)[1];
    SameBehindLead(c, o.lead, bs, Request);
    var d := Skipped(c, o.lead);
    if bs[0] == 'H' { SameHead(d, bs); } else { SameWord(d, bs); }
  }

  lemma WellFormedRequest(r: RequestMessage, bodiless: bool)
    requires RequestOk(r, bodiless)
    ensures LineEnds(r.opening.lead)
  {
  }

  /** A response is read as by a parser of responses, if its second byte is the T of "HTTP". */
  lemma ResponseIsFound(c: Conf, r: ResponseMessage)
    requires Untold(c) && ResponseOk(r, c.p.msg.bodiless) && r.status.name[0] == 'T'
    ensures Run(c, ResponseText(r)) == Run(Told(c, Response), ResponseText(r))
  {
    hide Dispatch, Run, Untold, ReasonText, LinesText, PayloadText, Told;
    var o := r.status;
    var bs := ResponseText(r)[|o.lead|..];
    assert LineEnds(o.lead) && o.name != "";
    assert ResponseText(r) == o.lead + bs;
    assert bs[0] == 'H' && bs[1] == o.name[0];
    SameBehindLead(c, o.lead, bs, Response);
    SameResponse(Skipped(c, o.lead), bs);
  }
}
