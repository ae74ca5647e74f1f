/** The grammar of callbacks for a parser that finds out from the stream whether it reads requests or responses. */
module KindGrammar {
  import opened ParserTypes
  import opened Transition
  import opened ParserRun
  import opened ParserInvariant
  import opened Execute
  import opened ParserCalls
  import opened EventGrammar
  import opened CallGrammar

  predicate AtMostBegun(t: seq<Event>) {
    t == [] || t == [MessageBegin]
  }

  /** The kind is not settled: no more than the beginning of a message has been called back. */
  ghost predicate Unsettled(c: Conf) {
    && c.open.None? && AtMostBegun(c.trace)
    && (!c.halt.Failed? ==>
          && c.p.state.Beginning? && !c.halt.Stopped?
          && (if c.p.state.start.PreStartReqOrRes? then c.trace == []
              else (c.p.state.start.StartReqOrRes? || c.p.state.start.ResOrRespH?) && c.trace == [MessageBegin]))
  }

  /** A run follows the grammar of its kind as far as that is settled. */
  ghost predicate Kinded(c: Conf) {
    Inv(c) && if c.p.msg.kind.Both? then Unsettled(c) else InGrammar(c.p.msg.kind.Request?, c)
  }

  /** The three states in which the kind is not settled. */
  lemma UnsettledDispatch(p: Parser, b: char)
    requires p.state.Beginning? && (p.state.start.PreStartReqOrRes? || p.state.start.StartReqOrRes? || p.state.start.ResOrRespH?)
    ensures var o := Dispatch(p, b);
            && o.mark.None? && o.flush.Keep? && !o.ctl.Stop?
            && (if p.state.start.PreStartReqOrRes? then
                  if o.calls == [] then o.p == p && !o.ctl.Fail?
                  else o.calls == [MessageBegin] && o.p == p.(state := Beginning(StartReqOrRes)) && !o.ctl.Fail?
                else o.calls == [])
            && (p.state.start.StartReqOrRes? ==>
                  && !o.ctl.Fail?
                  && ((o.p.state == Beginning(ResOrRespH) && o.p.msg.kind == p.msg.kind)
                      || (o.p.state == Beginning(StartReq) && o.p.msg.kind.Request?)))
            && (p.state.start.ResOrRespH? && !o.ctl.Fail? ==>
                  (o.p.state == StatusLine(ResHT) && o.p.msg.kind.Response?)
                  || (o.p.state == RequestLine(ReqMethod) && o.p.msg.kind.Request?))
            && (p.state.start.ResOrRespH? && o.ctl.Fail? ==> o.p.msg.kind == p.msg.kind)
  {
  }

  lemma UnsettledActed(c: Conf, o: Out, b: char)
    requires c.open.None? && o.mark.None? && o.flush.Keep? && |o.calls| <= 1
    ensures var d := Acted(c, o, b);
            d.open.None? && d.trace == (if o.calls == [] then c.trace else Push(c.trace, o.calls[0])) && d.p == o.p && d.halt == c.halt
    ensures Apply(c, o, b).open == Acted(c, o, b).open && Apply(c, o, b).trace == Acted(c, o, b).trace
  {
    hide Push;
    if o.calls != [] {
      assert o.calls == [o.calls[0]];
      PushOne(c.trace, o.calls[0]);
    }
  }

  /** With the first byte that tells, the grammar of the kind takes over. */
  lemma Settles(c: Conf)
    requires Inv(c) && c.halt.Running? && c.open.None? && c.trace == [MessageBegin]
    requires (c.p.state == Beginning(StartReq) && c.p.msg.kind.Request?) || (c.p.state == StatusLine(ResHT) && c.p.msg.kind.Response?)
             || (c.p.state == RequestLine(ReqMethod) && c.p.msg.kind.Request?)
    ensures InGrammar(c.p.msg.kind.Request?, c)
  {
    hide GoodHeader;
    assert c.trace[..0] == [] && Where(c.p.msg.kind.Request?, c.trace[..0]) == Idle;
  }

  lemma UnsettledStep(c: Conf, b: char)
    requires Inv(c) && c.halt.Running? && c.p.msg.kind.Both? && Unsettled(c)
    ensures Kinded(Apply(c, Dispatch(c.p, b), b))
  {
    hide Dispatch, Good, Push, InGrammar, Acted;
    var o := Dispatch(c.p, b);
    UnsettledDispatch(c.p, b);
    UnsettledActed(c, o, b);
    ApplyKeepsInv(c, b);
    ApplyKeepsState(c, o, b);
    var d := Apply(c, o, b);
    if o.calls == [MessageBegin] { BeginPush(c.trace); }
    if !d.p.msg.kind.Both? { Settles(d); }
  }

  lemma BeginPush(t: seq<Event>)
    requires t == []
    ensures Push(t, MessageBegin) == [MessageBegin]
  {
  }

  lemma KindStays(c: Conf, b: char)
    requires Inv(c) && c.halt.Running? && !c.p.msg.kind.Both?
    ensures Dispatch(c.p, b).p.msg.kind == c.p.msg.kind
  {
    hide Dispatch, GoodOpen, GoodHeader, GoodLength, GoodKind, OpenStep, ErrnoStep;
    DispatchOk(c.p, c.open, b);
  }

  lemma {:induction false} RunKeepsKind(c: Conf, bs: string)
    requires Inv(c) && !c.p.msg.kind.Both?
    ensures Run(c, bs).p.msg.kind == c.p.msg.kind
    decreases |bs|, Rank(c.p.state)
  {
    hide Dispatch, Apply, Inv, Rank;
    if bs != [] && c.halt == Running {
      var o := Dispatch(c.p, bs[0]);
      KindStays(c, bs[0]);
      ApplyKeepsInv(c, bs[0]);
      AgainLowersRank(c.p, bs[0]);
      ApplyKeepsState(c, o, bs[0]);
      RunKeepsKind(Apply(c, o, bs[0]), if o.ctl == Again then bs else bs[1..]);
    }
  }

  lemma {:induction false} KindedRun(c: Conf, bs: string)
    requires Kinded(c)
    ensures Kinded(Run(c, bs))
    decreases |bs|, Rank(c.p.state)
  {
    hide Dispatch, Apply, Inv, InGrammar, Unsettled, Rank;
    if bs != [] && c.halt == Running {
      if c.p.msg.kind.Both? {
        var o := Dispatch(c.p, bs[0]);
        UnsettledStep(c, bs[0]);
        AgainLowersRank(c.p, bs[0]);
        ApplyKeepsState(c, o, bs[0]);
        KindedRun(Apply(c, o, bs[0]), if o.ctl == Again then bs else bs[1..]);
      } else {
        RunInGrammar(c.p.msg.kind.Request?, c, bs);
        RunKeepsKind(c, bs);
        RunKeepsInv(c, bs);
      }
    }
  }

  // Between calls.

  ghost predicate FollowsKind(s: Object) {
    if s.p.msg.kind.Both? then AtMostBegun(s.calls) && (s.p.errno.OK? ==> Kinded(Resume(Start(s))))
    else Follows(s.p.msg.kind.Request?, s)
  }

  lemma InitFollowsKind(junk: Parser, kind: Kind)
    ensures FollowsKind(Object(Init(junk, kind), 0, []))
  {
    if !kind.Both? { InitFollows(junk, kind); }
  }

  lemma UnsettledExit(c: Conf)
    requires Inv(c) && c.p.msg.kind.Both? && Unsettled(c)
    ensures FollowsKind(ObjectOf(Exit(c)))
  {
    hide GoodHeader, GoodLength;
  }

  /** A call on a parser whose kind is not settled. */
  lemma UnsettledCall(s: Object, data: string)
    requires FollowsKind(s) && s.p.msg.kind.Both?
    ensures FollowsKind(Executed(s, data).0) && !(s.p.errno.OK? && s.p.state == InBody(BodyIdentityEof))
  {
    hide InGrammar, Run, Exit, Inv;
    if s.p.errno.OK? {
      UnsettledState(s);
      if data != "" {
        var d := Run(Resume(Start(s)), data);
        KindedRun(Resume(Start(s)), data);
        OneCall(s, data);
        if d.p.msg.kind.Both? { UnsettledExit(d); } else { SettledCall(d); }
      }
    }
  }

  lemma UnsettledState(s: Object)
    requires FollowsKind(s) && s.p.msg.kind.Both? && s.p.errno.OK?
    ensures s.p.state.Beginning?
  {
    hide InGrammar, Inv;
  }

  /** The end of the call in which the kind was settled. */
  lemma SettledCall(c: Conf)
    requires InGrammar(c.p.msg.kind.Request?, c) && !c.p.msg.kind.Both?
    ensures FollowsKind(ObjectOf(Exit(c)))
  {
    hide InGrammar, Exit, Where, CalledBack, Resume;
    var req := c.p.msg.kind.Request?;
    var e := Exit(c);
    ExitInGrammar(req, c);
    ExitKind(c);
    EndFollows(req, e);
  }

  lemma ExitKind(c: Conf)
    ensures Exit(c).p.msg == c.p.msg
  {
  }

  lemma CallKeepsKind(s: Object, data: string)
    requires Sane(s) && !s.p.msg.kind.Both?
    ensures Executed(s, data).0.p.msg.kind == s.p.msg.kind
  {
    hide Run, Exit, Inv, Resume;
    if s.p.errno.OK? && data != "" {
      StartInv(s);
      ResumeMessage(s);
      RunKeepsKind(Resume(Start(s)), data);
      OneCall(s, data);
      ExitKind(Run(Resume(Start(s)), data));
    }
  }

  lemma ResumeMessage(s: Object)
    ensures Resume(Start(s)).p == s.p
  {
  }

  lemma {:induction false} CallsKeepKind(s: Object, buffers: seq<string>)
    requires Sane(s) && !s.p.msg.kind.Both?
    ensures ExecutedAll(s, buffers).p.msg.kind == s.p.msg.kind
    decreases |buffers|
  {
    hide Sane, Executed;
    if buffers != [] {
      CallStaysSane(s, buffers[0]);
      CallKeepsKind(s, buffers[0]);
      CallsKeepKind(Executed(s, buffers[0]).0, buffers[1..]);
    }
  }

  lemma {:induction false} CallsInKindGrammar(s: Object, buffers: seq<string>)
    requires FollowsKind(s) && Sane(s)
    ensures var t := ExecutedAll(s, buffers);
            if t.p.msg.kind.Both? then AtMostBegun(t.calls) && !Late(s, buffers)
            else Where(t.p.msg.kind.Request?, t.calls) != Reject <==> !Late(s, buffers)
    decreases |buffers|
  {
    hide Sane, Executed, Where, Kinded, Follows;
    if !s.p.msg.kind.Both? {
      CallsKeepKind(s, buffers);
      CallsInGrammar(s.p.msg.kind.Request?, s, buffers);
    } else if buffers != [] {
      UnsettledCall(s, buffers[0]);
      CallStaysSane(s, buffers[0]);
      CallsInKindGrammar(Executed(s, buffers[0]).0, buffers[1..]);
    }
  }

  /** From initialisation on, for a parser of any kind: once its stream has shown whether it carries requests or
      responses, the callbacks follow the grammar of that kind if and only if no call follows the end of the stream
      that has completed a body without a length; before that, no more than the beginning of a message is called back. */
  lemma AnyParserInGrammar(junk: Parser, kind: Kind, buffers: seq<string>)
    ensures var s := Object(Init(junk, kind), 0, []);
            var t := ExecutedAll(s, buffers);
            && (!kind.Both? ==> t.p.msg.kind == kind)
            && (if t.p.msg.kind.Both? then AtMostBegun(t.calls) && !Late(s, buffers)
                else Where(t.p.msg.kind.Request?, t.calls) != Reject <==> !Late(s, buffers))
  {
    hide FollowsKind, Sane, Where, ExecutedAll, Late;
    var s := Object(Init(junk, kind), 0, []);
    InitSane(junk, kind);
    InitFollowsKind(junk, kind);
    CallsInKindGrammar(s, buffers);
    if !kind.Both? { CallsKeepKind(s, buffers); }
  }
}
