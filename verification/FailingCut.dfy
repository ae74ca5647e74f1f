/** Where split invariance of the callbacks fails: a stream in error while data is under a mark. */
module FailingCut {
  import opened Options
  import opened ParserTypes
  import opened Transition
  import opened ParserRun
  import opened ParserInvariant
  import opened Execute
  import opened MarkedData
  import opened SplitInvariance
  import opened AnyCut
  import opened PlainStreams
  import opened Walk
  import opened Methods

  const SOH: char := 1 as char
  const GOOD: string := "GET /a"

  lemma StartDispatch(p: Parser)
    requires p.state == Beginning(PreStartReq)
    ensures Dispatch(p, 'G') == Redo(p.(state := Beginning(StartReq))).(calls := [MessageBegin])
  {
  }

  lemma UrlDispatch(p: Parser)
    ensures p.state == RequestLine(ReqSpacesBeforeUrl) && p.msg.verb == GET ==>
              Dispatch(p, '/') == Go(p.(state := InUrl(ReqPath))).(mark := Some(Url))
    ensures p.state == InUrl(ReqPath) ==> Dispatch(p, 'a') == Go(p) && Dispatch(p, SOH) == Bad(p, INVALID_PATH)
  {
  }

  lemma GetIsMethod()
    ensures VerbString(GET) == "GET" && ' ' !in "GET"
  {
  }

  lemma InLine(p: Parser, open: Option<DataKind>)
    requires Good(p, open) && p.state.RequestLine?
    ensures open.None?
  {
  }

  /** The good part leaves the parser in a path, with its two bytes under a mark. */
  lemma ReachesPath(c: Conf)
    requires Inv(c) && c.halt.Running? && c.open.None? && c.p.state == Beginning(PreStartReq)
    ensures var d := Run(c, GOOD); d.halt.Running? && d.p.state == InUrl(ReqPath) && d.open == Some(Url) && d.count == c.count + 6
  {
    hide Dispatch, Apply, Push, Run, Good, VerbString;
    var word := "GET" + " ";
    StartDispatch(c.p);
    assert word[0] == 'G';
    var c1 := StepRedo(c, word, c.p.(state := Beginning(StartReq)), [MessageBegin]);
    GetIsMethod();
    MethodExact(c1, "GET", GET);
    RunKeepsInv(c, word);
    var c2 := Run(c, word);
    RunCounts(c, word);
    InLine(c2.p, c2.open);
    UrlDispatch(c2.p);
    var q := c2.p.(state := InUrl(ReqPath));
    StepMark(c2, '/', q, Url);
    UrlDispatch(q);
    StepGo(Run(c2, ['/']), 'a', q);
    RunAppend(c, word, ['/']);
    RunAppend(c, word + ['/'], ['a']);
    assert word + ['/'] + ['a'] == GOOD;
  }

  lemma FailsAt(c: Conf)
    requires c.halt.Running? && c.open.Some? && Dispatch(c.p, SOH) == Bad(c.p, INVALID_PATH)
    ensures var d := Run(c, [SOH]); d.halt.Failed? && d.open == c.open && d.since == c.since && d.count == c.count && d.made == c.made
  {
    hide Dispatch, Push;
    RunOne(c, SOH);
  }

  lemma FreshRequest(junk: Parser)
    ensures var c := Between(Init(junk, Request), 0, []);
            Starts(c) && Marked(c) && Resume(c) == c && c.p.state == Beginning(PreStartReq) && c.nread == 0 && c.count == 0
  {
  }

  /** A request whose path breaks off at a control byte: in one buffer its URL is never called back, and cut before
      that byte, the good part of it is. */
  lemma FailureMatters(junk: Parser)
    ensures var c := Between(Init(junk, Request), 0, []);
            && Starts(c) && Regular(c, GOOD + [SOH]) && Drops(Run(Resume(c), GOOD + [SOH]))
            && CalledBack(Feed(c, [GOOD, [SOH]])) != CalledBack(Run(Resume(c), GOOD + [SOH]))
  {
    hide Dispatch, Push, Run, Apply, Resume, Inv, Ends, MarkOk, Marked, Feed, CalledBack, NoBareCr, NeverLapses, HeadersFit;
    var c := Between(Init(junk, Request), 0, []);
    var bs := GOOD + [SOH];
    FreshRequest(junk);
    ReachesPath(c);
    var d := Run(c, GOOD);
    RunMark(c, GOOD);
    UrlDispatch(d.p);
    FailsAt(d);
    RunAppend(c, GOOD, [SOH]);
    TextWithoutBareCr(c, bs);
    ShortFits(c, bs);
    CutDiffers(c, bs);
    assert bs[..6] == GOOD && bs[6..] == [SOH];
  }
}
