/** The grammar of callbacks over sequences of calls, those that signal the end of the stream included. */
module CallGrammar {
  import opened Chars
  import opened Options
  import opened ParserTypes
  import opened Transition
  import opened ParserRun
  import opened ParserInvariant
  import opened Execute
  import opened ParserCalls
  import opened EventGrammar
  import opened Framing
  import HB = HeaderBlocks
  import RT = ResponseRoundTrip

  /** Where the callbacks of a parser stand between two calls. */
  ghost predicate Follows(req: bool, s: Object) {
    && Where(req, s.calls) != Reject
    && (s.p.errno.OK? ==> InGrammar(req, Resume(Start(s))))
  }

  lemma InitFollows(junk: Parser, kind: Kind)
    requires !kind.Both?
    ensures Follows(kind.Request?, Object(Init(junk, kind), 0, []))
  {
  }

  lemma ShiftGrammar(req: bool, c: Conf, k: nat)
    ensures InGrammar(req, Shift(c, k)) <==> InGrammar(req, c)
  {
    hide Good, Fits, Where;
  }

  lemma CalledBackInGrammar(req: bool, c: Conf)
    requires InGrammar(req, c)
    ensures Where(req, CalledBack(c)) != Reject
  {
    hide Good, Fits, Where;
  }

  lemma StoppedGoesOn(req: bool, c: Conf)
    requires InGrammar(req, c) && c.halt.Stopped?
    ensures InGrammar(req, c.(halt := Running))
  {
    hide GoodOpen, GoodHeader, GoodLength, GoodKind, Fits, Where;
  }

  lemma GrammarParts(req: bool, c: Conf)
    requires InGrammar(req, c)
    ensures Inv(c) && (c.halt.Running? ==> c.p.errno.OK? && Counted(c.p, c.nread) == c.nread) && (c.halt.Failed? ==> !c.p.errno.OK?)
  {
    hide GoodOpen, GoodHeader, GoodLength, GoodKind, Fits, Where;
  }

  lemma EndFollows(req: bool, c: Conf)
    requires InGrammar(req, c)
    ensures Follows(req, ObjectOf(c))
  {
    hide InGrammar, Resume, Where, CalledBack;
    CalledBackInGrammar(req, c);
    GrammarParts(req, c);
    if !c.halt.Failed? {
      var f := c.(halt := Running);
      if c.halt.Stopped? { StoppedGoesOn(req, c); }
      GrammarParts(req, f);
      ResumeInGrammar(req, f);
      RestartResume(f);
      ShiftGrammar(req, Resume(Start(ObjectOf(f))), f.count);
      SameObject(c);
    }
  }

  /** A call on a buffer. */
  lemma BufferFollows(req: bool, s: Object, data: string)
    requires Follows(req, s) && s.p.errno.OK? && data != ""
    ensures Follows(req, Executed(s, data).0)
  {
    hide InGrammar, Run, Exit, Resume, Where, CalledBack;
    var d := Run(Resume(Start(s)), data);
    RunInGrammar(req, Resume(Start(s)), data);
    ExitInGrammar(req, d);
    OneCall(s, data);
    EndFollows(req, Exit(d));
  }

  lemma SameObject(c: Conf)
    requires !c.halt.Failed?
    ensures ObjectOf(c.(halt := Running)) == ObjectOf(c)
  {
  }

  /** A call is made on a parser whose stream, with a body that lasts to its end, was said to have ended. */
  predicate Late(s: Object, buffers: seq<string>)
    decreases |buffers|
  {
    buffers != [] &&
    if s.p.errno.OK? && buffers[0] == "" && s.p.state == InBody(BodyIdentityEof) then |buffers| > 1
    else Late(Executed(s, buffers[0]).0, buffers[1..])
  }

  /** The end-of-stream call inside such a body completes its message. */
  lemma EofCompletes(req: bool, s: Object)
    requires Follows(req, s) && s.p.errno.OK? && s.p.state == InBody(BodyIdentityEof)
    ensures Where(req, Executed(s, "").0.calls) == Idle
  {
    hide Good, Where, Push;
    WhereAfterPush(req, s.calls, MessageComplete);
    var c := Resume(Start(s));
    assert c.trace == s.calls && c.open.None?;
  }

  lemma OtherCallFollows(req: bool, s: Object, data: string)
    requires Follows(req, s) && !(s.p.errno.OK? && data == "" && s.p.state == InBody(BodyIdentityEof))
    ensures Follows(req, Executed(s, data).0)
  {
    hide InGrammar, Resume, Where, Call;
    if s.p.errno.OK? && data != "" { BufferFollows(req, s, data); }
  }

  // What was rejected stays rejected.

  lemma RejectedPush(req: bool, t: seq<Event>, e: Event)
    requires Where(req, t) == Reject
    ensures Where(req, Push(t, e)) == Reject
  {
    var u := Push(t, e);
    if |u| == |t| {
      assert u[..|u| - 1] == t[..|t| - 1];
      AfterIgnoresBytes(req, Where(req, t[..|t| - 1]), e.kind, t[|t| - 1].bytes, u[|u| - 1].bytes);
      assert t[|t| - 1] == Data(e.kind, t[|t| - 1].bytes);
    } else {
      assert u[..|u| - 1] == t;
    }
  }

  lemma {:induction false} RejectedPushAll(req: bool, t: seq<Event>, es: seq<Event>)
    requires Where(req, t) == Reject
    ensures Where(req, PushAll(t, es)) == Reject
    decreases |es|
  {
    hide Where, Push;
    if es != [] {
      RejectedPush(req, t, es[0]);
      RejectedPushAll(req, Push(t, es[0]), es[1..]);
    }
  }

  ghost predicate Rejected(req: bool, c: Conf) {
    Where(req, c.trace) == Reject && (c.open.Some? ==> Where(req, c.made) == Reject)
  }

  lemma RejectedOpened(req: bool, c: Conf, mark: Option<DataKind>)
    requires Rejected(req, c)
    ensures Rejected(req, Opened(c, mark))
  {
    hide Where, Push;
    if mark.Some? { RejectedPush(req, c.trace, Data(mark.value, "")); }
  }

  lemma RejectedTraceStep(req: bool, c: Conf, o: Out, b: char)
    requires Where(req, c.trace) == Reject
    ensures Where(req, Apply(c, o, b).trace) == Reject
  {
    hide Where, Push, PushAll;
    if o.mark.Some? { RejectedPush(req, c.trace, Data(o.mark.value, "")); }
    var d := Opened(c.(p := o.p, nread := if o.reset then 0 else c.nread), o.mark);
    if o.flush.Through? { RejectedPush(req, d.trace, Data(o.flush.kind, [b])); }
    var e := Flushed(d, o.flush, b);
    RejectedPushAll(req, e.trace, o.calls);
    var a := Called(e, o.calls);
    if a.open.Some? { RejectedPush(req, a.trace, Data(a.open.value, [b])); }
  }

  lemma RejectedApply(req: bool, c: Conf, o: Out, b: char)
    requires Rejected(req, c)
    ensures Rejected(req, Apply(c, o, b))
  {
    hide Where, Push, Acted;
    RejectedTraceStep(req, c, o, b);
    ActedMade(c, o, b);
  }

  lemma {:induction false} RejectedRun(req: bool, c: Conf, bs: string)
    requires Rejected(req, c)
    ensures Rejected(req, Run(c, bs))
    decreases |bs|, Rank(c.p.state)
  {
    hide Dispatch, Apply, Rejected, Rank;
    if bs != [] && c.halt == Running {
      var o := Dispatch(c.p, bs[0]);
      RejectedApply(req, c, o, bs[0]);
      AgainLowersRank(c.p, bs[0]);
      ApplyKeepsState(c, o, bs[0]);
      RejectedRun(req, Apply(c, o, bs[0]), if o.ctl == Again then bs else bs[1..]);
    }
  }

  lemma RejectedCalledBack(req: bool, c: Conf)
    requires Rejected(req, c)
    ensures Where(req, ObjectOf(Exit(c)).calls) == Reject
  {
    hide Where;
  }

  lemma RejectedCall(req: bool, s: Object, data: string)
    requires Where(req, s.calls) == Reject
    ensures Where(req, Executed(s, data).0.calls) == Reject
  {
    hide Where, Run, Rejected, Exit;
    if s.p.errno.OK? {
      if data == "" {
        RejectedPush(req, s.calls, MessageComplete);
      } else {
        var c := Start(s);
        assert Rejected(req, Resume(c)) by { RejectedStart(req, s); }
        RejectedRun(req, Resume(c), data);
        RejectedCalledBack(req, Run(Resume(c), data));
        OneCall(s, data);
      }
    }
  }

  lemma RejectedStart(req: bool, s: Object)
    requires Where(req, s.calls) == Reject
    ensures Rejected(req, Resume(Start(s)))
  {
    hide Where, Push, Opened;
    RejectedOpened(req, Start(s), EntryMark(s.p.state));
  }

  lemma {:induction false} RejectedCalls(req: bool, s: Object, buffers: seq<string>)
    requires Where(req, s.calls) == Reject
    ensures Where(req, ExecutedAll(s, buffers).calls) == Reject
    decreases |buffers|
  {
    hide Where, Executed;
    if buffers != [] {
      RejectedCall(req, s, buffers[0]);
      RejectedCalls(req, Executed(s, buffers[0]).0, buffers[1..]);
    }
  }

  // After the end of the stream.

  lemma {:induction false} EofRun(c: Conf, bs: string)
    requires c.halt.Running? && c.p.state == InBody(BodyIdentityEof) && (c.open.None? || c.open == Some(Body))
    ensures Run(c, bs).halt.Running? && Run(c, bs).p == c.p
    decreases |bs|
  {
    hide Dispatch, Apply, Push;
    if bs != "" {
      EofByte(c, bs[0]);
      EofKeeps(c, bs[0]);
      RunStep(c, bs);
      EofRun(Apply(c, Dispatch(c.p, bs[0]), bs[0]), bs[1..]);
    }
  }

  lemma EofKeeps(c: Conf, b: char)
    requires c.p.state == InBody(BodyIdentityEof) && c.halt.Running? && (c.open.None? || c.open == Some(Body))
    ensures var d := Apply(c, Dispatch(c.p, b), b); d.p == c.p && d.halt.Running? && d.open == Some(Body)
  {
    hide Push, PushAll;
  }

  /** Any call on a parser whose body has been completed by the end of the stream breaks the grammar. */
  lemma LateCall(req: bool, s: Object, data: string)
    requires s.p.errno.OK? && s.p.state == InBody(BodyIdentityEof) && Where(req, s.calls) == Idle
    ensures Where(req, Executed(s, data).0.calls) == Reject
  {
    hide Run, Where, Push, Dispatch, Exit;
    if data == "" {
      WhereAfterPush(req, s.calls, MessageComplete);
    } else {
      var c := Resume(Start(s));
      var b := data[0];
      EofByte(c, b);
      EofKeeps(c, b);
      var d := Apply(c, Dispatch(c.p, b), b);
      RunStep(c, data);
      EofRun(c, data);
      LateByte(req, c, b);
      RejectedTrace(req, d, data[1..]);
      OneCall(s, data);
      EofExit(Run(c, data));
    }
  }

  lemma LateByte(req: bool, c: Conf, b: char)
    requires c.open.None? && Where(req, c.trace) == Idle
    ensures Where(req, Push(Opened(c, Some(Body)).trace, Data(Body, [b]))) == Reject
  {
    hide Where, Push;
    PushTwice(c.trace, Body, "", [b]);
    assert "" + [b] == [b];
    WhereAfterPush(req, c.trace, Data(Body, [b]));
  }

  lemma {:induction false} RejectedTrace(req: bool, c: Conf, bs: string)
    requires Where(req, c.trace) == Reject
    ensures Where(req, Run(c, bs).trace) == Reject
    decreases |bs|, Rank(c.p.state)
  {
    hide Dispatch, Apply, Where, Rank;
    if bs != [] && c.halt == Running {
      var o := Dispatch(c.p, bs[0]);
      RejectedTraceStep(req, c, o, bs[0]);
      AgainLowersRank(c.p, bs[0]);
      ApplyKeepsState(c, o, bs[0]);
      RejectedTrace(req, Apply(c, o, bs[0]), if o.ctl == Again then bs else bs[1..]);
    }
  }

  lemma EofExit(c: Conf)
    requires c.halt.Running? && c.p.state == InBody(BodyIdentityEof)
    ensures ObjectOf(Exit(c)).calls == c.trace
  {
  }

  /** The grammar of pipelined messages over any sequence of calls: the callbacks are in it if and only if no call
      follows the end-of-stream call that completed a body without a length. */
  lemma {:induction false} CallsInGrammar(req: bool, s: Object, buffers: seq<string>)
    requires Follows(req, s)
    ensures Where(req, ExecutedAll(s, buffers).calls) != Reject <==> !Late(s, buffers)
    decreases |buffers|
  {
    hide InGrammar, Where, Executed;
    if buffers != [] {
      var t := Executed(s, buffers[0]).0;
      if s.p.errno.OK? && buffers[0] == "" && s.p.state == InBody(BodyIdentityEof) {
        EofCompletes(req, s);
        EofLeaves(s);
        if |buffers| > 1 {
          LateCall(req, t, buffers[1]);
          RejectedCalls(req, Executed(t, buffers[1]).0, buffers[1..][1..]);
        }
      } else {
        OtherCallFollows(req, s, buffers[0]);
        CallsInGrammar(req, t, buffers[1..]);
      }
    }
  }

  lemma EofLeaves(s: Object)
    requires s.p.errno.OK? && s.p.state == InBody(BodyIdentityEof)
    ensures Executed(s, "").0.p == s.p
  {
  }

  lemma RequestBodyEnds(s: Object)
    requires Follows(true, s) && s.p.errno.OK?
    ensures s.p.state != InBody(BodyIdentityEof)
  {
    hide GoodOpen, GoodHeader, GoodLength, Fits, Where;
  }

  lemma {:induction false} RequestsNeverLate(s: Object, buffers: seq<string>)
    requires Follows(true, s)
    ensures !Late(s, buffers)
    decreases |buffers|
  {
    hide Follows, Executed;
    if buffers != [] {
      if s.p.errno.OK? { RequestBodyEnds(s); }
      OtherCallFollows(true, s, buffers[0]);
      RequestsNeverLate(Executed(s, buffers[0]).0, buffers[1..]);
    }
  }

  /** From initialisation on, the callbacks of a request parser follow the grammar whatever the calls, and those of
      a response parser exactly if the end of the stream is the last call. */
  lemma ParserInGrammar(junk: Parser, kind: Kind, buffers: seq<string>)
    requires !kind.Both?
    ensures var s := Object(Init(junk, kind), 0, []);
            && (Where(kind.Request?, ExecutedAll(s, buffers).calls) != Reject <==> !Late(s, buffers))
            && (kind.Request? ==> Where(true, ExecutedAll(s, buffers).calls) != Reject)
  {
    hide Follows, Where, ExecutedAll, Late, Init;
    var s := Object(Init(junk, kind), 0, []);
    InitFollows(junk, kind);
    CallsInGrammar(kind.Request?, s, buffers);
    if kind.Request? { RequestsNeverLate(s, buffers); }
  }

  const HEAD_ONLY: string := RT.StatusLineText(200, "OK") + CRLF + CRLF

  /** A response without headers has a body that lasts to the end of the stream. */
  lemma ReachesEof(c: Conf)
    requires RT.Ready(c)
    ensures var d := Run(c, HEAD_ONLY); d.halt.Running? && d.p.state == InBody(BodyIdentityEof) && d.open.None?
  {
    hide Dispatch, Push, PushAll, Run, RT.StatusLineText;
    RT.RunPrintedStatus(c, 200, "OK");
    var a := RT.StatusLineText(200, "OK") + CRLF;
    HeadFrames(Run(c, a), [], CRLF);
    assert HB.LinesText([]) + CRLF == CRLF;
    RunAppend(c, a, CRLF);
  }

  /** The input that breaks the grammar: such a response, and the end of the stream signalled twice. */
  lemma EndedTwice(junk: Parser)
    requires !junk.msg.bodiless
    ensures var s := Object(Init(junk, Response), 0, []);
            Late(s, [HEAD_ONLY, "", ""]) && Where(false, ExecutedAll(s, [HEAD_ONLY, "", ""]).calls) == Reject
  {
    hide Run, Where, Exit, Follows, ExecutedAll, HEAD_ONLY, Executed, Inv;
    var s := Object(Init(junk, Response), 0, []);
    HeadIsBuffer();
    ResponseStarts(junk);
    ReachesEof(Resume(Start(s)));
    RunKeepsInv(Resume(Start(s)), HEAD_ONLY);
    RunningIsCounted(Run(Resume(Start(s)), HEAD_ONLY));
    OneCall(s, HEAD_ONLY);
    EofOpens(Run(Resume(Start(s)), HEAD_ONLY));
    InitFollows(junk, Response);
    OtherCallFollows(false, s, HEAD_ONLY);
    assert [HEAD_ONLY, "", ""][1..] == ["", ""];
    CallsInGrammar(false, s, [HEAD_ONLY, "", ""]);
  }

  lemma HeadIsBuffer()
    ensures HEAD_ONLY != ""
  {
  }

  lemma ResponseStarts(junk: Parser)
    requires !junk.msg.bodiless
    ensures RT.Ready(Resume(Start(Object(Init(junk, Response), 0, [])))) && Inv(Resume(Start(Object(Init(junk, Response), 0, []))))
  {
  }

  lemma EofOpens(c: Conf)
    requires c.halt.Running? && c.p.state == InBody(BodyIdentityEof)
    ensures ObjectOf(Exit(c)).p == c.p
  {
  }
}
