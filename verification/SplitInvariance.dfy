/** The result of parsing a stream does not depend on how it is cut into buffers, except for a cut
    inside a header value after a bare CR. */
module SplitInvariance {
  import opened Chars
  import opened Options
  import opened Texts
  import opened ParserTypes
  import opened Transition
  import opened ParserRun
  import opened ParserInvariant
  import opened Execute
  import opened MarkedData

  /** One call per piece, until a call stops or fails. */
  function Feed(c: Conf, pieces: seq<string>): Conf
    decreases |pieces|
  {
    if pieces == [] || !c.halt.Running? then c
    else Feed(Exit(Run(Resume(c), pieces[0])), pieces[1..])
  }

  predicate LastIs(t: seq<Event>, k: DataKind) {
    t != [] && t[|t| - 1].Data? && t[|t| - 1].kind == k
  }

  /** Data under report is the last event of the trace, and so is a header value that lost its mark. */
  predicate Ends(c: Conf) {
    && (c.open.Some? ==> LastIs(c.trace, c.open.value))
    && (c.halt.Running? && c.p.state == InValue(HeaderValue) ==> LastIs(c.trace, Value))
  }

  /** Inside a header value, after a CR that was not followed by LF: the mark is gone, and the value
      bytes are not reported for the rest of the buffer. */
  predicate Unmarked(c: Conf) {
    c.p.state == InValue(HeaderValue) && c.open.None?
  }

  predicate EndsValue(p: Parser, b: char) {
    (b == CR || b == LF) && !p.headerState.GeneralAndQuoteAndEscape?
  }

  lemma PushEmpty(t: seq<Event>, k: DataKind)
    requires LastIs(t, k)
    ensures Push(t, Data(k, "")) == t
  {
    assert t[|t| - 1].bytes + "" == t[|t| - 1].bytes;
  }

  lemma PushLast(t: seq<Event>, k: DataKind, s: string)
    ensures LastIs(Push(t, Data(k, s)), k)
  {
  }

  predicate Quiet(o: Out) {
    o.mark.None? && o.flush.Keep? && o.calls == []
  }

  predicate Unmarking(p: Parser, o: Out) {
    o.p.state == InValue(HeaderValue) && !o.ctl.Fail? ==>
      && o.flush.Keep?
      && ((p.state == InValue(HeaderValue) && Quiet(o)) || o.mark == Some(Value) || o.calls == [Data(Value, " ")])
  }

  lemma UnmarkingInValue(p: Parser, b: char)
    requires p.state.InValue?
    ensures Unmarking(p, DispatchHeaderValue(p, b))
  {
    hide Matched, IsHeaderChar, IsNum;
  }

  /** A header value without a mark either goes on or has just been given the space that stands for a CR. */
  lemma IntoUnmarked(p: Parser, b: char)
    ensures Unmarking(p, Dispatch(p, b))
  {
    hide MethodByte, UrlByte, FirstLetter, IsToken, FieldLetter, IsNum, Unhex, DispatchHeaderValue;
    match p.state
    case InValue(_) => UnmarkingInValue(p, b);
    case Beginning(_) =>
    case RequestLine(_) =>
    case StatusLine(_) =>
    case _ =>
  }

  lemma EndsStep(c: Conf, b: char)
    requires Inv(c) && c.halt.Running? && Ends(c)
    ensures Ends(Apply(c, Dispatch(c.p, b), b))
  {
    hide Dispatch, Good, GoodOpen, Push;
    var o := Dispatch(c.p, b);
    StepOkParts(c.p, c.open, b);
    ActedParts(c, o, b);
    IntoUnmarked(c.p, b);
    var a := Acted(c, o, b);
    var m := Opened(c.(p := o.p, nread := if o.reset then 0 else c.nread), o.mark);
    if o.mark.Some? {
      PushLast(c.trace, o.mark.value, "");
    }
    if a.open.Some? {
      assert a.trace == m.trace && LastIs(a.trace, a.open.value);
      PushLast(a.trace, a.open.value, [b]);
    } else if o.calls == [Data(Value, " ")] {
      PushOne(Flushed(m, o.flush, b).trace, Data(Value, " "));
      PushLast(Flushed(m, o.flush, b).trace, Value, " ");
    }
  }

  lemma {:induction false} RunKeepsEnds(c: Conf, bs: string)
    requires Inv(c) && Ends(c)
    ensures Ends(Run(c, bs))
    decreases |bs|, Rank(c.p.state)
  {
    hide Dispatch, Apply, Inv, Ends, Rank;
    if bs != [] && c.halt == Running {
      var o := Dispatch(c.p, bs[0]);
      ApplyKeepsInv(c, bs[0]);
      EndsStep(c, bs[0]);
      AgainLowersRank(c.p, bs[0]);
      ApplyKeepsState(c, o, bs[0]);
      RunKeepsEnds(Apply(c, o, bs[0]), if o.ctl == Again then bs else bs[1..]);
    }
  }

  lemma ResumeKeeps(c: Conf)
    requires Inv(c) && c.halt.Running? && Ends(c)
    ensures Inv(Resume(c)) && Ends(Resume(c))
    ensures MarkOk(c) ==> MarkOk(Resume(c))
  {
    hide Push, GoodHeader, GoodLength, GoodKind, Volume;
    var k := EntryMark(c.p.state);
    if k.Some? {
      PushLast(c.trace, k.value, "");
      VolumePush(c.trace, Data(k.value, ""));
    }
  }

  /** A parser about to be called. */
  ghost predicate Starts(c: Conf) {
    c.halt.Running? && Inv(Resume(c)) && Ends(Resume(c)) && MarkOk(Resume(c))
  }

  // A byte does to a resumed parser what it does to one that goes on, but for the beginning of a mark.

  lemma SameMarkStep(c: Conf)
    requires Ends(c) && MarkOk(c) && Grown(c) && c.open == EntryMark(c.p.state)
    ensures Cut(Resume(c), c)
  {
    hide Push, Volume;
    if c.open.Some? { PushEmpty(c.trace, c.open.value); }
  }

  lemma ReasonOut(p: Parser, b: char)
    requires p.state == StatusLine(ResStatus)
    ensures Dispatch(p, b).mark == Some(Reason)
  {
  }

  lemma ReasonStep(c: Conf, b: char)
    requires c.p.state == StatusLine(ResStatus) && c.open.None? && MarkOk(c)
    ensures Apply(Resume(c), Dispatch(c.p, b), b) == Apply(c, Dispatch(c.p, b), b)
  {
    hide Dispatch, Push, PushAll, Volume;
    ReasonOut(c.p, b);
  }

  lemma BodyOut(p: Parser, b: char)
    requires p.state.InBody? && GoodOpen(p.state, Some(Body))
    ensures var o := Dispatch(p, b);
            if o.mark.None? then o.flush == Before(Body) else o.mark == Some(Body) && (o.flush.Keep? || o.flush == Through(Body))
  {
  }

  lemma BodyStep(c: Conf, b: char)
    requires c.p.state.InBody? && c.open == Some(Body) && LastIs(c.trace, Body) && GoodOpen(c.p.state, c.open) && MarkOk(c) && Grown(c)
    ensures Cut(Apply(Resume(c), Dispatch(c.p, b), b), Apply(c, Dispatch(c.p, b), b))
  {
    hide Dispatch, Push, PushAll, Volume;
    BodyOut(c.p, b);
    PushEmpty(c.trace, Body);
  }

  lemma ValueOut(p: Parser, b: char)
    requires p.state == InValue(HeaderValue)
    ensures var o := Dispatch(p, b);
            && o.mark.None? && o.calls == []
            && (EndsValue(p, b) <==> o.p.state == InValue(HeaderAlmostDone))
            && (if EndsValue(p, b) then o.flush == Before(Value) else o.p.state == p.state && o.flush.Keep? && (o.ctl.Next? || o.ctl.Fail?))
  {
    hide IsHeaderChar, IsNum, Lower;
  }

  lemma EndsValueStep(c: Conf, b: char)
    requires Unmarked(c) && LastIs(c.trace, Value) && EndsValue(c.p, b) && MarkOk(c)
    ensures Apply(Resume(c), Dispatch(c.p, b), b) == Apply(c, Dispatch(c.p, b), b)
  {
    hide Dispatch, Push, PushAll, Volume;
    ValueOut(c.p, b);
    PushEmpty(c.trace, Value);
  }

  lemma ResumeStep(c: Conf, b: char)
    requires Inv(c) && c.halt.Running? && Ends(c) && MarkOk(c) && Grown(c) && (Unmarked(c) ==> EndsValue(c.p, b))
    ensures Cut(Apply(Resume(c), Dispatch(c.p, b), b), Apply(c, Dispatch(c.p, b), b))
  {
    hide Dispatch, Apply, GoodHeader, GoodLength, GoodKind, Resume, Volume;
    if c.open == EntryMark(c.p.state) {
      SameMarkStep(c);
      CutApply(Resume(c), c, Dispatch(c.p, b), b);
    } else if c.p.state.InBody? {
      BodyStep(c, b);
    } else if c.p.state.StatusLine? {
      ReasonStep(c, b);
    } else {
      EndsValueStep(c, b);
    }
  }

  lemma ResumeState(c: Conf)
    ensures Resume(c).p == c.p && Resume(c).halt == c.halt && Resume(c).count == c.count && Resume(c).nread == c.nread
  {
  }

  lemma RunResume(c: Conf, bs: string)
    requires Inv(c) && c.halt.Running? && Ends(c) && MarkOk(c) && Grown(c) && bs != [] && (Unmarked(c) ==> EndsValue(c.p, bs[0]))
    ensures Cut(Run(Resume(c), bs), Run(c, bs))
  {
    hide Dispatch, Apply, Inv, Ends, MarkOk, Grown, Resume, Cut;
    ResumeStep(c, bs[0]);
    ResumeState(c);
    RunStep(c, bs);
    RunStep(Resume(c), bs);
    var o := Dispatch(c.p, bs[0]);
    CutRun(Apply(Resume(c), o, bs[0]), Apply(c, o, bs[0]), if o.ctl == Again then bs else bs[1..]);
  }

  // After a cut inside a value that lost its mark.

  /** The value that lost its mark goes on. */
  predicate Lapses(c: Conf, b: char) {
    Unmarked(c) && !EndsValue(c.p, b) && !Dispatch(c.p, b).ctl.Fail?
  }

  /** Both runs have failed in a value without a mark, where the first has set one at the cut, over no bytes yet. */
  predicate Faulted(c: Conf, d: Conf) {
    && c.halt.Failed? && c.open.Some? && d.open.None? && c.since == c.count && c.made == c.trace
    && c.(open := None, made := d.made, since := d.since) == d
  }

  /** The first run has been cut where the second has not. */
  predicate Matches(c: Conf, d: Conf) {
    Cut(c, d) || Faulted(c, d)
  }

  /** At a cut inside such a value, with a byte to follow that is in error. */
  lemma RunFault(c: Conf, bs: string)
    requires c.halt.Running? && Ends(c) && Unmarked(c) && bs != "" && Dispatch(c.p, bs[0]).ctl.Fail? && !EndsValue(c.p, bs[0])
    ensures Faulted(Run(Resume(c), bs), Run(c, bs))
  {
    hide Dispatch, Push, PushAll, Run;
    var o := Dispatch(c.p, bs[0]);
    ValueOut(c.p, bs[0]);
    PushEmpty(c.trace, Value);
    PushNone(c.trace);
    RunStep(c, bs);
    RunStep(Resume(c), bs);
    RunHalted(Apply(c, o, bs[0]), bs[1..]);
    RunHalted(Apply(Resume(c), o, bs[0]), bs[1..]);
  }

  lemma MatchesTwice(c: Conf, d: Conf, e: Conf)
    requires Matches(c, d) && Matches(d, e) && MarkOk(c)
    ensures Matches(c, e)
  {
    hide Volume;
    if Cut(c, d) && Cut(d, e) { CutTwice(c, d, e); }
  }

  lemma MatchesExit(c: Conf, d: Conf)
    requires Matches(c, d)
    ensures Matches(Exit(c), Exit(d))
  {
    hide Volume;
    if Cut(c, d) { CutExit(c, d); }
  }

  lemma MatchesParts(c: Conf, d: Conf)
    requires Matches(c, d)
    ensures c.p == d.p && c.nread == d.nread && c.count == d.count && c.halt == d.halt && c.trace == d.trace
  {
    hide Volume;
  }

  /** The first of two parsers has a mark where the second has lost it, or has had one, and has more bytes. */
  predicate Ahead(c: Conf, d: Conf) {
    && c.p == d.p && c.halt == d.halt && Volume(c.trace) > Volume(d.trace)
    && (c.open == d.open || (c.p.state == InValue(HeaderValue) && c.open == Some(Value) && d.open.None?))
  }

  lemma {:induction false} VolumePushAll(t: seq<Event>, u: seq<Event>, es: seq<Event>)
    ensures Volume(PushAll(t, es)) + Volume(u) == Volume(PushAll(u, es)) + Volume(t)
    decreases |es|
  {
    hide Push, Volume;
    if es != [] {
      VolumePush(t, es[0]);
      VolumePush(u, es[0]);
      VolumePushAll(Push(t, es[0]), Push(u, es[0]), es[1..]);
    }
  }

  lemma AheadActed(c: Conf, d: Conf, b: char)
    requires Ahead(c, d)
    ensures Ahead(Acted(c, Dispatch(c.p, b), b), Acted(d, Dispatch(c.p, b), b))
  {
    hide Dispatch, Push, PushAll, Volume;
    var o := Dispatch(c.p, b);
    if c.open == d.open {
      if o.mark.Some? {
        VolumePush(c.trace, Data(o.mark.value, ""));
        VolumePush(d.trace, Data(o.mark.value, ""));
      }
      var c2, d2 := Opened(c.(p := o.p), o.mark), Opened(d.(p := o.p), o.mark);
      if o.flush.Through? {
        VolumePush(c2.trace, Data(o.flush.kind, [b]));
        VolumePush(d2.trace, Data(o.flush.kind, [b]));
      }
      var c3, d3 := Flushed(c2, o.flush, b), Flushed(d2, o.flush, b);
      VolumePushAll(c3.trace, d3.trace, o.calls);
    } else {
      ValueOut(c.p, b);
      PushNone(c.trace);
      PushNone(d.trace);
    }
  }

  lemma AheadApply(c: Conf, d: Conf, b: char)
    requires Ahead(c, d)
    ensures Ahead(Apply(c, Dispatch(c.p, b), b), Apply(d, Dispatch(c.p, b), b))
  {
    hide Dispatch, Push, PushAll, Volume, Acted;
    var o := Dispatch(c.p, b);
    AheadActed(c, d, b);
    var a, e := Acted(c, o, b), Acted(d, o, b);
    if a.open.Some? {
      VolumePush(a.trace, Data(a.open.value, [b]));
      VolumePush(e.trace, Data(a.open.value, [b]));
    }
  }

  lemma {:induction false} AheadRun(c: Conf, d: Conf, bs: string)
    requires Ahead(c, d)
    ensures Ahead(Run(c, bs), Run(d, bs))
    decreases |bs|, Rank(c.p.state)
  {
    hide Dispatch, Apply, Rank, Volume;
    if bs != [] && c.halt == Running {
      var o := Dispatch(c.p, bs[0]);
      AheadApply(c, d, bs[0]);
      AgainLowersRank(c.p, bs[0]);
      ApplyKeepsState(c, o, bs[0]);
      AheadRun(Apply(c, o, bs[0]), Apply(d, o, bs[0]), if o.ctl == Again then bs else bs[1..]);
    }
  }

  lemma UnmarkedByte(c: Conf, b: char)
    requires Unmarked(c) && c.halt.Running? && !EndsValue(c.p, b) && !Dispatch(c.p, b).ctl.Fail?
    ensures Dispatch(c.p, b).ctl.Next?
    ensures Ahead(Apply(Resume(c), Dispatch(c.p, b), b), Apply(c, Dispatch(c.p, b), b))
  {
    hide Dispatch, Push, PushAll, Volume;
    ValueOut(c.p, b);
    PushNone(c.trace);
    PushNone(Push(c.trace, Data(Value, "")));
    VolumePush(c.trace, Data(Value, ""));
    VolumePush(Push(c.trace, Data(Value, "")), Data(Value, [b]));
  }

  /** At a cut inside a value that lost its mark, with a byte to follow that is not in error, the traces of the
      two runs agree in the end if and only if that byte ends the value, whatever comes after it. */
  lemma UnmarkedCut(c: Conf, rest: string)
    requires Inv(c) && c.halt.Running? && Ends(c) && MarkOk(c) && Unmarked(c)
    requires rest != "" && !Dispatch(c.p, rest[0]).ctl.Fail?
    ensures Run(Resume(c), rest).trace == Run(c, rest).trace <==> EndsValue(c.p, rest[0])
  {
    hide Dispatch, Apply, Inv, Ends, Resume, Volume, EndsValue;
    var o := Dispatch(c.p, rest[0]);
    if EndsValue(c.p, rest[0]) {
      RunResume(c, rest);
    } else {
      UnmarkedByte(c, rest[0]);
      ResumeState(c);
      RunStep(c, rest);
      RunStep(Resume(c), rest);
      AheadRun(Apply(Resume(c), o, rest[0]), Apply(c, o, rest[0]), rest[1..]);
    }
  }

  /** What a caller must see to about the cuts: none leaves more header bytes than the limit behind it,
      and none falls inside a header value that has lost its mark to a bare CR and goes on. */
  ghost predicate CutsOk(c: Conf, pieces: seq<string>)
    decreases |pieces|
  {
    |pieces| >= 2 && c.halt.Running? ==>
      var d := Run(Resume(c), pieces[0]);
      && pieces[1] != ""
      && (d.halt.Running? ==> d.nread <= HTTP_MAX_HEADER_SIZE && !Lapses(d, pieces[1][0]))
      && CutsOk(d, pieces[1..])
  }

  lemma {:induction false} ConcatFirst(pieces: seq<string>)
    requires pieces != [] && pieces[0] != ""
    ensures Concat(pieces) != "" && Concat(pieces)[0] == pieces[0][0]
  {
  }

  lemma FeedHalted(c: Conf, pieces: seq<string>)
    requires !c.halt.Running?
    ensures Feed(c, pieces) == c
  {
  }

  /** Split invariance: feeding the pieces one by one leaves exactly the parser state, the byte counts and the
      trace of one call on the whole stream, whether it goes on, stops or fails; only the mark that may be set
      at the end began later, if a cut fell behind its beginning or into a value without one. */
  lemma {:induction false} SplitInvariant(c: Conf, pieces: seq<string>)
    requires Starts(c) && pieces != [] && pieces[0] != "" && CutsOk(c, pieces)
    ensures Matches(Feed(c, pieces), Exit(Run(Resume(c), Concat(pieces))))
    decreases |pieces|
  {
    hide Inv, Ends, Dispatch, Apply, Resume, Run, MarkOk, Grown, Cut, Faulted, EndsValue, Unmarked;
    var d := Run(Resume(c), pieces[0]);
    RunKeepsInv(Resume(c), pieces[0]);
    RunKeepsEnds(Resume(c), pieces[0]);
    RunMark(Resume(c), pieces[0]);
    var rest := pieces[1..];
    RunAppend(Resume(c), pieces[0], Concat(rest));
    CutItself(Exit(d));
    if rest == [] {
      RunNothing(d);
      assert Feed(c, pieces) == Feed(Exit(d), rest);
    } else if d.halt.Running? {
      assert rest[0] == pieces[1];
      SmallExit(d);
      ResumeKeeps(d);
      SplitInvariant(d, rest);
      ConcatFirst(rest);
      if Unmarked(d) && !EndsValue(d.p, rest[0][0]) { RunFault(d, Concat(rest)); } else { RunResume(d, Concat(rest)); }
      MatchesExit(Run(Resume(d), Concat(rest)), Run(d, Concat(rest)));
      FeedKeepsInv(d, rest);
      MatchesTwice(Feed(d, rest), Exit(Run(Resume(d), Concat(rest))), Exit(Run(d, Concat(rest))));
    } else {
      FeedHalted(Exit(d), rest);
      RunHalted(d, Concat(rest));
    }
  }

  lemma CutItself(c: Conf)
    ensures Cut(c, c)
  {
  }

  /** What has been called back is the same as well, if and only if the stream does not fail over data under a
      mark that was set before the last cut: a failing call never calls those bytes back, while the call before
      the cut has done so with its part. */
  lemma SplitExact(c: Conf, pieces: seq<string>)
    requires Starts(c) && pieces != [] && pieces[0] != "" && CutsOk(c, pieces)
    ensures var f, u := Feed(c, pieces), Exit(Run(Resume(c), Concat(pieces)));
            && f.p == u.p && f.nread == u.nread && f.count == u.count && f.halt == u.halt
            && (CalledBack(f) == CalledBack(u) <==> !(u.halt.Failed? && u.open.Some? && u.since < f.since))
  {
    hide Starts, Feed, Resume, Run, Exit, CutsOk, Volume;
    SplitInvariant(c, pieces);
  }

  lemma SmallExit(c: Conf)
    requires Inv(c) && c.nread <= HTTP_MAX_HEADER_SIZE
    ensures Exit(c) == c
  {
  }

  lemma ExitKeeps(c: Conf)
    requires Inv(c) && Ends(c)
    ensures Inv(Exit(c)) && Ends(Exit(c)) && (MarkOk(c) ==> MarkOk(Exit(c)))
  {
    hide Good, Volume;
  }

  /** Over any sequence of calls on buffers, the states that the switch calls impossible stay out of reach, at most
      one mark is set, and the counters and header states are those the current state allows. */
  lemma {:induction false} FeedKeepsInv(c: Conf, pieces: seq<string>)
    requires Starts(c) && pieces != []
    ensures Inv(Feed(c, pieces)) && Ends(Feed(c, pieces)) && MarkOk(Feed(c, pieces))
    decreases |pieces|
  {
    hide Inv, Ends, MarkOk, Grown, Run, Resume, Exit;
    var d := Run(Resume(c), pieces[0]);
    RunKeepsInv(Resume(c), pieces[0]);
    RunKeepsEnds(Resume(c), pieces[0]);
    RunMark(Resume(c), pieces[0]);
    ExitKeeps(d);
    if |pieces| > 1 && Exit(d).halt.Running? {
      ResumeKeeps(Exit(d));
      FeedKeepsInv(Exit(d), pieces[1..]);
    }
  }
}
