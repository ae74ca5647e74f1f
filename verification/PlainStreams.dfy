/** Conditions on the bytes of a stream under which it may be cut anywhere. */
module PlainStreams {
  import opened Chars
  import opened ParserTypes
  import opened Transition
  import opened ParserRun
  import opened ParserInvariant
  import opened Execute
  import opened SplitInvariance
  import opened AnyCut

  /** The CR at the end of a header value is followed by LF. */
  ghost predicate NoBareCr(c: Conf, bs: string) {
    forall n :: 0 <= n < |bs| ==> LfNext(Run(c, bs[..n]), bs[n])
  }

  predicate LfNext(c: Conf, b: char) {
    c.halt.Running? && c.p.state == InValue(HeaderAlmostDone) ==> b == LF
  }

  /** The end of a line is reached at CR or LF, and a value is entered without a mark only from there, at a byte
      other than LF. */
  predicate ByteKeepsMark(p: Parser, b: char, o: Out) {
    !o.ctl.Fail? ==>
      && (o.p.state == InValue(HeaderAlmostDone) ==> b == if o.ctl.Again? then LF else CR)
      && (o.p.state == InValue(HeaderValue) && o.calls != [] ==> p.state == InValue(HeaderAlmostDone) && b != LF)
  }

  lemma ValueKeepsMark(p: Parser, b: char)
    requires p.state.InValue?
    ensures ByteKeepsMark(p, b, DispatchHeaderValue(p, b))
  {
    hide IsHeaderChar, IsNum, Lower;
  }

  lemma LineKeepsMark(p: Parser, b: char)
    requires p.state.Beginning? || p.state.RequestLine? || p.state.StatusLine?
    ensures ByteKeepsMark(p, b, Dispatch(p, b))
  {
    hide MethodByte, FirstLetter, IsNum;
    match p.state
    case Beginning(_) =>
    case RequestLine(_) =>
    case StatusLine(_) =>
  }

  lemma EveryByteKeepsMark(p: Parser, b: char)
    ensures ByteKeepsMark(p, b, Dispatch(p, b))
  {
    hide UrlByte, IsToken, FieldLetter, IsNum, Unhex, DispatchHeaderValue, DispatchStart, DispatchStatus, DispatchRequest;
    match p.state
    case InValue(_) => ValueKeepsMark(p, b);
    case Beginning(_) => LineKeepsMark(p, b);
    case RequestLine(_) => LineKeepsMark(p, b);
    case StatusLine(_) => LineKeepsMark(p, b);
    case _ =>
  }

  lemma MarkedStep(c: Conf, b: char)
    requires Inv(c) && c.halt.Running? && Marked(c) && LfNext(c, b)
    ensures var d := Apply(c, Dispatch(c.p, b), b);
            Marked(d) && (Dispatch(c.p, b).ctl.Again? ==> LfNext(d, b))
  {
    hide Dispatch, Good, GoodOpen, Push, PushAll;
    var o := Dispatch(c.p, b);
    EveryByteKeepsMark(c.p, b);
    IntoUnmarked(c.p, b);
    ActedParts(c, o, b);
    ApplyKeepsState(c, o, b);
  }

  lemma {:induction false} ByteRunKeepsMark(c: Conf, b: char)
    requires Inv(c) && Marked(c) && LfNext(c, b)
    ensures Marked(Run(c, [b]))
    decreases Rank(c.p.state)
  {
    hide Dispatch, Apply, Inv, Marked, LfNext, Rank;
    if c.halt.Running? {
      var o := Dispatch(c.p, b);
      MarkedStep(c, b);
      ApplyKeepsInv(c, b);
      AgainLowersRank(c.p, b);
      ApplyKeepsState(c, o, b);
      RunStep(c, [b]);
      if o.ctl.Again? {
        ByteRunKeepsMark(Apply(c, o, b), b);
      } else {
        assert [b][1..] == "";
        RunNothing(Apply(c, o, b));
      }
    }
  }

  lemma {:induction false} RunKeepsMark(c: Conf, bs: string, n: nat)
    requires Inv(c) && Marked(c) && NoBareCr(c, bs) && n <= |bs|
    ensures Marked(Run(c, bs[..n]))
    decreases n
  {
    hide Run, Inv, Marked, LfNext;
    if n == 0 {
      assert bs[..0] == "";
      RunNothing(c);
    } else {
      var a := bs[..n - 1];
      RunKeepsMark(c, bs, n - 1);
      assert bs[..n] == a + [bs[n - 1]];
      RunAppend(c, a, [bs[n - 1]]);
      RunKeepsInv(c, a);
      ByteRunKeepsMark(Run(c, a), bs[n - 1]);
    }
  }

  lemma NoBareCrNeverLapses(c: Conf, bs: string)
    requires Inv(c) && Marked(c) && NoBareCr(c, bs)
    ensures NeverLapses(c, bs)
  {
    hide Run, Inv, LfNext, EndsValue;
    forall n | 0 <= n < |bs|
      ensures !LapsesAt(Run(c, bs[..n]), bs[n])
    {
      RunKeepsMark(c, bs, n);
    }
  }

  lemma {:induction false} LineEndsAtCr(c: Conf, b: char)
    requires Inv(c)
    ensures Run(c, [b]).halt.Running? && Run(c, [b]).p.state == InValue(HeaderAlmostDone) && c.p.state != InValue(HeaderAlmostDone) ==> b == CR
    ensures Run(c, [b]).halt.Running? && c.p.state == InValue(HeaderAlmostDone) && b == LF ==> Run(c, [b]).p.state != InValue(HeaderAlmostDone)
    decreases Rank(c.p.state)
  {
    hide Dispatch, Apply, Inv, Rank;
    if c.halt.Running? {
      var o := Dispatch(c.p, b);
      EveryByteKeepsMark(c.p, b);
      LineFeedGoesOn(c.p);
      ApplyKeepsInv(c, b);
      AgainLowersRank(c.p, b);
      ApplyKeepsState(c, o, b);
      ApplyHalts(c, o, b);
      RunStep(c, [b]);
      if o.ctl.Again? {
        LineEndsAtCr(Apply(c, o, b), b);
      } else {
        assert [b][1..] == "";
        RunNothing(Apply(c, o, b));
      }
    } else {
      RunHalted(c, [b]);
    }
  }

  lemma LineFeedGoesOn(p: Parser)
    ensures p.state == InValue(HeaderAlmostDone) ==> Dispatch(p, LF).ctl.Next? && Dispatch(p, LF).p.state == InValue(HeaderValueLws)
  {
  }

  /** It is enough that every CR of the stream is followed by LF. */
  lemma TextWithoutBareCr(c: Conf, bs: string)
    requires Inv(c) && (c.halt.Running? ==> c.p.state != InValue(HeaderAlmostDone))
    requires forall i :: 0 <= i < |bs| - 1 && bs[i] == CR ==> bs[i + 1] == LF
    ensures NoBareCr(c, bs) && (Marked(c) ==> NeverLapses(c, bs))
  {
    hide Run, Inv, LapsesAt, Marked;
    forall n | 0 <= n < |bs|
      ensures LfNext(Run(c, bs[..n]), bs[n])
    {
      if n == 0 {
        assert bs[..0] == "";
        RunNothing(c);
      } else {
        AlmostDoneAt(c, bs, n);
      }
    }
    if Marked(c) { NoBareCrNeverLapses(c, bs); }
  }

  lemma {:induction false} AlmostDoneAt(c: Conf, bs: string, n: nat)
    requires Inv(c) && 0 < n <= |bs| && (c.halt.Running? ==> c.p.state != InValue(HeaderAlmostDone))
    requires forall i :: 0 <= i < |bs| - 1 && bs[i] == CR ==> bs[i + 1] == LF
    ensures var d := Run(c, bs[..n]); d.halt.Running? && d.p.state == InValue(HeaderAlmostDone) ==> bs[n - 1] == CR
    decreases n
  {
    hide Run, Inv;
    var a := bs[..n - 1];
    assert bs[..n] == a + [bs[n - 1]];
    RunAppend(c, a, [bs[n - 1]]);
    RunKeepsInv(c, a);
    LineEndsAtCr(Run(c, a), bs[n - 1]);
    if n > 1 {
      AlmostDoneAt(c, bs, n - 1);
    } else {
      assert a == "";
      RunNothing(c);
    }
    if !Run(c, a).halt.Running? { RunHalted(Run(c, a), [bs[n - 1]]); }
  }

  lemma {:induction false} CountBounds(c: Conf, bs: string)
    ensures Run(c, bs).nread <= c.nread + |bs|
    decreases |bs|, Rank(c.p.state)
  {
    hide Dispatch, Push, PushAll, Rank;
    if bs != [] && c.halt == Running {
      var o := Dispatch(c.p, bs[0]);
      var d := Apply(c, o, bs[0]);
      AgainLowersRank(c.p, bs[0]);
      ApplyKeepsState(c, o, bs[0]);
      ApplyCounts(c, o, bs[0]);
      CountBounds(d, if o.ctl == Again then bs else bs[1..]);
    }
  }

  lemma ApplyCounts(c: Conf, o: Out, b: char)
    ensures Apply(c, o, b).nread <= c.nread + 1
    ensures o.ctl.Again? ==> Apply(c, o, b).nread <= c.nread
  {
    hide Push, PushAll;
  }

  /** A short stream has short headers. */
  lemma ShortFits(c: Conf, bs: string)
    requires c.nread + |bs| <= HTTP_MAX_HEADER_SIZE
    ensures HeadersFit(c, bs)
  {
    hide Run;
    forall n | 0 <= n <= |bs|
      ensures Run(c, bs[..n]).nread <= HTTP_MAX_HEADER_SIZE
    {
      CountBounds(c, bs[..n]);
    }
  }
}
