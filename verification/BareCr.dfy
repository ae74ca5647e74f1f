/** Where split invariance fails: a header value that goes on after a bare CR. */
module BareCr {
  import opened Chars
  import opened Options
  import opened ParserTypes
  import opened Transition
  import opened ParserRun
  import opened ParserInvariant
  import opened Execute
  import opened MarkedData
  import opened SplitInvariance
  import opened PlainStreams
  import opened Walk
  import opened HeaderLines
  import opened ResponseRoundTrip

  const FIRST: string := StatusLineText(200, "OK") + CRLF + "A:b\rc"
  const SECOND: string := "d"

  lemma AlmostDoneDispatch(p: Parser)
    requires p.state == InValue(HeaderAlmostDone) && p.headerState.General?
    ensures Dispatch(p, 'c') == Out(p.(state := InValue(HeaderValue)), None, Keep, [Data(Value, " ")], false, Next)
  {
  }

  lemma ValueGoesOn(p: Parser)
    requires p.state == InValue(HeaderValue) && p.headerState.General?
    ensures Dispatch(p, 'd') == Go(p)
  {
  }

  /** The bytes of the first buffer leave the parser inside a value, with the mark used up at the CR. */
  lemma ReachesUnmarked(c: Conf)
    requires Ready(c)
    ensures var d := Run(c, FIRST); d.halt.Running? && Unmarked(d) && d.p.headerState.General? && d.count == c.count + |FIRST|
  {
    hide Dispatch, Apply, Push, Run, Recognised, LowerAll, IsName, StatusLineText, Passes;
    var a := StatusLineText(200, "OK") + CRLF;
    RunPrintedStatus(c, 200, "OK");
    var c1 := Run(c, a);
    NamesHere();
    RunName(c1, "A", "");
    assert "A" + ":" + "" == "A:";
    var c2 := Run(c1, "A:");
    RunText(c2, "b");
    var c3 := Run(c2, "b");
    ValueEnd(c3.p);
    var q := c3.p.(state := InValue(HeaderAlmostDone));
    StepFlush(c3, CR, q, Value);
    var c4 := Run(c3, [CR]);
    AlmostDoneDispatch(q);
    StepCall(c4, 'c', q.(state := InValue(HeaderValue)), Data(Value, " "), false);
    RunAppend(c, a, "A:");
    RunAppend(c, a + "A:", "b");
    RunAppend(c, a + "A:" + "b", [CR]);
    RunAppend(c, a + "A:" + "b" + [CR], ['c']);
    assert a + "A:" + "b" + [CR] + ['c'] == FIRST;
  }

  lemma NamesHere()
    ensures IsName("A") && Ordinary(Recognised(LowerAll("A"))) && Passes("b") && Quoting("b") == General
  {
    PlainIsValue("b");
    assert LowerAll("A") == "a";
  }

  lemma FirstIsShort()
    ensures |FIRST| < 100
  {
  }

  /** A concrete stream whose callbacks depend on the cut: after a bare CR in a value, the bytes up to
      the end of the buffer are dropped, while a new buffer starts to report again. */
  lemma SplitMatters(junk: Parser)
    requires !junk.msg.bodiless
    ensures var c := Between(Init(junk, Response), 0, []);
            Feed(c, [FIRST, SECOND]).trace != Feed(c, [FIRST + SECOND]).trace
  {
    hide Dispatch, Push, Run, Apply, Resume, MarkOk;
    var c := Between(Init(junk, Response), 0, []);
    FirstIsShort();
    assert Ready(c) && Inv(c) && Ends(c) && MarkOk(c) && Resume(c) == c by { StartsClosed(junk); }
    ReachesUnmarked(c);
    CountBounds(c, FIRST);
    RunKeepsInv(c, FIRST);
    RunKeepsEnds(c, FIRST);
    RunMark(c, FIRST);
    var d := Run(c, FIRST);
    SmallExit(d);
    ValueGoesOn(d.p);
    assert SECOND == ['d'];
    UnmarkedCut(d, SECOND);
    RunAppend(c, FIRST, SECOND);
    FeedTwo(c, FIRST, SECOND);
    FeedOne(c, FIRST + SECOND);
  }

  lemma StartsClosed(junk: Parser)
    requires !junk.msg.bodiless
    ensures var c := Between(Init(junk, Response), 0, []);
            Ready(c) && Inv(c) && Ends(c) && MarkOk(c) && Resume(c) == c
  {
  }

  lemma FeedOne(c: Conf, a: string)
    requires c.halt.Running? && Resume(c) == c
    ensures Feed(c, [a]).trace == Run(c, a).trace
  {
    hide Run, Resume;
    assert [a][1..] == [];
  }

  lemma FeedTwo(c: Conf, a: string, b: string)
    requires c.halt.Running? && Resume(c) == c && Exit(Run(c, a)) == Run(c, a) && Run(c, a).halt.Running?
    ensures Feed(c, [a, b]).trace == Run(Resume(Run(c, a)), b).trace
  {
    hide Run, Resume;
    assert [a, b][1..] == [b] && [b][1..] == [];
    assert Feed(c, [a, b]) == Feed(Run(c, a), [b]);
    assert Feed(Run(c, a), [b]) == Feed(Exit(Run(Resume(Run(c, a)), b)), []);
  }
}
