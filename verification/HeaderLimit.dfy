/** The limit on the header bytes of a message. */
module HeaderLimit {
  import opened Chars
  import opened Options
  import opened ParserTypes
  import opened Transition
  import opened ParserRun
  import opened ParserInvariant
  import opened Execute
  import opened PlainStreams
  import opened ParserCalls
  import opened Walk
  import opened HeaderLines
  import opened RequestLines
  import opened Messages
  import opened Serving

  /** A call that ends inside the headers of a message fails exactly when the bytes of these are more than 80 KiB; else it
      leaves what the stream means. */
  lemma OverflowExact(s: Object, data: string)
    requires Sane(s) && s.p.errno.OK? && data != "" && Run(Resume(Start(s)), data).halt.Running? && Run(Resume(Start(s)), data).nread < UINT32_SPAN
    ensures var r, t := Run(Resume(Start(s)), data), Executed(s, data).0;
            && (t.p.errno.HEADER_OVERFLOW? <==> ParsingHeader(r.p.state) && r.nread > 80 * 1024)
            && (!t.p.errno.HEADER_OVERFLOW? ==> t.p == r.p && t.calls == r.trace)
            && t.calls == if t.p.errno.HEADER_OVERFLOW? && r.open.Some? then r.made else r.trace
  {
    hide Run, Resume, Start, Sane, Inv;
    StartInv(s);
    RunKeepsInv(Resume(Start(s)), data);
    StartRuns(s);
    RunningIsFine(Run(Resume(Start(s)), data));
    OneCall(s, data);
  }

  lemma StartRuns(s: Object)
    ensures Resume(Start(s)).halt.Running?
  {
  }

  lemma RunningIsFine(c: Conf)
    requires Inv(c) && c.halt.Running?
    ensures c.p.errno.OK?
  {
    hide GoodOpen, GoodHeader, GoodLength, GoodKind;
  }

  lemma SlashDispatch(p: Parser)
    requires p.state == RequestLine(ReqSpacesBeforeUrl) && p.msg.verb != CONNECT
    ensures Dispatch(p, '/') == Go(p.(state := InUrl(ReqPath))).(mark := Some(Url))
  {
  }

  lemma PathDispatch(p: Parser, x: char)
    requires p.state == InUrl(ReqPath) && IsUrlChar(x)
    ensures Dispatch(p, x) == Go(p)
  {
  }

  lemma RunLongPath(c: Conf, path: string)
    requires ReadyForRequest(c) && c.p.errno.OK? && forall x <- path :: IsUrlChar(x)
    ensures var d := Run(c, "GET " + "/" + path);
            d.halt.Running? && d.p.state == InUrl(ReqPath) && d.nread >= |path|
  {
    hide Dispatch, Apply, Push, Run, Idle, IsUrlChar, VerbString;
    GetIs();
    RunWord(c, GET);
    var d := Run(c, "GET ");
    assert "/" == ['/'];
    SlashDispatch(d.p);
    var q := d.p.(state := InUrl(ReqPath));
    StepMark(d, '/', q, Url);
    var e := Run(d, "/");
    forall x <- path
      ensures Dispatch(q, x) == Go(q)
    {
      PathDispatch(q, x);
    }
    IdleBecause(q, path);
    RunIdle(e, path, "");
    RunNothing(Skipped(e, path));
    assert path + "" == path;
    RunAppend(c, "GET ", "/");
    RunAppend(c, "GET " + "/", path);
  }

  lemma GetIs()
    ensures VerbString(GET) + " " == "GET " && GET != CONNECT
  {
  }

  /** A request whose path alone is longer than that is refused. */
  lemma LongPathOverflows(s: Object, path: string)
    requires Sane(s) && BetweenRequests(s) && (forall x <- path :: IsUrlChar(x)) && 80 * 1024 < |path| && s.nread + |path| + 5 < UINT32_SPAN
    ensures Executed(s, "GET " + "/" + path).0.p.errno.HEADER_OVERFLOW?
  {
    hide Run, Resume, Start, Sane, Executed, IsUrlChar;
    var c, text := Resume(Start(s)), "GET " + "/" + path;
    StartIsReady(s);
    StartCount(s);
    RunLongPath(c, path);
    CountBounds(c, text);
    OverflowExact(s, text);
  }

  lemma StartCount(s: Object)
    requires BetweenRequests(s)
    ensures Resume(Start(s)).nread == s.nread
  {
  }
}
