/** The rest of what the parser refuses: line ends that are none, chunk sizes that are none, and starts of no message. */
module LineFaults {
  import opened Chars
  import opened Options
  import opened ParserTypes
  import opened Transition
  import opened ParserRun
  import opened Numbers
  import opened Walk
  import opened HeaderLines
  import opened HeaderBlocks
  import opened HeaderFaults
  import opened RequestTargets
  import opened RequestLines
  import opened StatusLines
  import opened KindFound

  lemma LineDoneBad(p: Parser, x: char)
    requires x != LF
    ensures p.state == RequestLine(ReqLineAlmostDone) ==> Dispatch(p, x) == Bad(p, LF_EXPECTED)
    ensures p.state == AtEnd(HeadersAlmostDone) ==> Dispatch(p, x) == Bad(p, STRICT)
  {
  }

  /** The CR at the end of a request line must be followed by LF. */
  lemma RequestLineNeedsLf(c: Conf, o: Opening, x: char)
    requires c.halt.Running? && c.open.None? && c.p.state == Beginning(PreStartReq) && OpeningOk(o) && !IsOldest(o) && x != LF
    ensures var text := MethodText(o.lead, o.verb, o.gap) + (TargetText(o.target) + " ") + VersionText(o);
            FailedWith(Run(c, text + [CR, x]), LF_EXPECTED)
  {
    hide Dispatch, Apply, Push, Run, MethodText, TargetText, VersionText, OpeningOk, IsOldest, DecVal;
    var text := MethodText(o.lead, o.verb, o.gap) + (TargetText(o.target) + " ") + VersionText(o);
    RunOpening(c, o);
    NotOldest(o);
    var d := Run(c, text);
    MinorDispatch(d.p);
    var q := d.p.(state := RequestLine(ReqLineAlmostDone));
    StepGo(d, CR, q);
    LineDoneBad(q, x);
    StepBad(Run(d, [CR]), x, q, LF_EXPECTED);
    RunAppend(d, [CR], [x]);
    RunAppend(c, text, [CR, x]);
    assert [CR] + [x] == [CR, x];
  }

  lemma NotOldest(o: Opening)
    requires OpeningOk(o) && !IsOldest(o)
    ensures !(DecVal(o.major) == 0 && DecVal(o.minor) == 9)
  {
    hide DecVal;
  }

  /** So must the one on the blank line behind the headers. */
  lemma BlankLineNeedsLf(c: Conf, ls: seq<Line>, x: char)
    requires c.halt.Running? && c.open.None? && c.p.state == InField(HeaderFieldStart) && LinesOk(ls) && x != LF
    ensures FailedWith(Run(c, LinesText(ls) + [CR, x]), STRICT)
  {
    hide Dispatch, Apply, Push, PushAll, Run, LinesOk, LinesText, LinesEvents, LengthOf, AnyChunked, AnyUpgrade;
    RunLines(c, ls);
    var d := Run(c, LinesText(ls));
    var e := Onward(d, [CR, x]);
    BlankDispatch(e.p);
    var q := e.p.(state := AtEnd(HeadersAlmostDone));
    StepGo(e, CR, q);
    LineDoneBad(q, x);
    StepBad(Run(e, [CR]), x, q, STRICT);
    RunAppend(e, [CR], [x]);
    RunAppend(c, LinesText(ls), [CR, x]);
    assert [CR] + [x] == [CR, x];
  }

  lemma BareCrDispatch(p: Parser, x: char)
    requires p.state == InValue(HeaderAlmostDone) && x != LF
    ensures Dispatch(p, x) ==
            Out(p.(state := InValue(HeaderValue), msg := p.msg.(chunked := p.msg.chunked || p.headerState.Chunked?)), None, Keep, [Data(Value, " ")], false, Next)
  {
  }

  /** A CR in a value that is not followed by LF is not refused: it is reported as a space, the byte behind it is lost, and
      the value goes on; but if it is a transfer coding, and "chunked" so far, that takes effect. */
  lemma BareCrInCoding(c: Conf, f: string, ows: string, v: string, x: char)
    requires c.halt.Running? && c.open.None? && c.p.state == InField(HeaderFieldStart) && IsName(f) && IsOws(ows) && LowerAll(f) == TRANSFER_ENCODING
    requires IsSolid(v) && !CodingState(v).GeneralAndQuoteAndEscape? && x != LF
    ensures var d := Run(c, f + ":" + ows + v + [CR, x]);
            && d.halt.Running? && d.p.state == InValue(HeaderValue) && d.trace == Push(Push(c.trace, Data(Field, f)), Data(Value, v + " "))
            && d.p.msg == c.p.msg.(chunked := c.p.msg.chunked || IsChunked(LowerAll(v)))
  {
    hide Dispatch, Apply, Push, Run, IsText, IsName, LowerAll, IsChunked, CodingState, IsOws;
    var text := f + ":" + ows;
    HeaderLines.RunName(c, f, ows);
    var d := Run(c, text);
    RunCoding(d, v);
    CodingMeans(v);
    var e := Run(d, v);
    ValueEnd(e.p);
    var q := e.p.(state := InValue(HeaderAlmostDone));
    StepFlush(e, CR, q, Value);
    BareCrDispatch(q, x);
    StepCall(Run(e, [CR]), x, Dispatch(q, x).p, Data(Value, " "), false);
    RunAppend(e, [CR], [x]);
    assert [CR] + [x] == [CR, x];
    RunAppend(c, text, v);
    RunAppend(c, text + v, [CR, x]);
    PushTwice(d.trace, Value, v, " ");
  }

  lemma SizeDispatch(p: Parser, x: char)
    requires !IsHex(x) && x as int < 128
    ensures p.state == InChunkSize(ChunkSizeStart) ==> Dispatch(p, x) == Bad(p, INVALID_CHUNK_SIZE)
    ensures p.state == InChunkSize(ChunkSize) && x != CR && x != ';' && x != ' ' ==> Dispatch(p, x) == Bad(p, INVALID_CHUNK_SIZE)
  {
  }

  /** A chunk starts with a hexadecimal digit, and only CR, a semicolon or a space ends its size. */
  lemma SizeIsHex(c: Conf, size: string, x: char)
    requires c.halt.Running? && c.open.None? && c.p.state == InChunkSize(ChunkSizeStart)
    requires (forall y <- size :: IsHex(y)) && HexVal(size) <= INT64_MAX && !IsHex(x) && x as int < 128
    requires size != "" ==> x != CR && x != ';' && x != ' '
    ensures FailedWith(Run(c, size + [x]), INVALID_CHUNK_SIZE)
  {
    hide Dispatch, Apply, Push, Run, IsHex, HexVal;
    if size == "" {
      SizeDispatch(c.p, x);
      StepBad(c, x, c.p, INVALID_CHUNK_SIZE);
      assert size + [x] == [x];
    } else {
      ChunkSizeExact(c, size);
      var d := Run(c, size);
      SizeDispatch(d.p, x);
      StepBad(d, x, d.p, INVALID_CHUNK_SIZE);
      RunAppend(c, size, [x]);
    }
  }

  lemma StartBad(p: Parser, x: char)
    ensures p.state == Beginning(StartRes) && x != 'H' ==> Dispatch(p, x) == Bad(Fresh(p, Beginning(StartRes)), INVALID_CONSTANT)
    ensures p.state == Beginning(ResOrRespH) && x != 'E' && x != 'T' ==> Dispatch(p, x) == Bad(p, INVALID_CONSTANT)
  {
  }

  /** A response starts with H. */
  lemma ResponseStartsWithH(c: Conf, x: char)
    requires c.halt.Running? && c.open.None? && c.p.state == Beginning(PreStartRes) && x != CR && x != LF && x != 'H'
    ensures FailedWith(Run(c, [x]), INVALID_CONSTANT)
  {
    hide Dispatch, Apply, Push, Run;
    StartDispatch(c.p, x);
    var d := StepRedo(c, [x], c.p.(state := Beginning(StartRes)), [MessageBegin]);
    StartBad(d.p, x);
    StepBad(d, x, Fresh(d.p, Beginning(StartRes)), INVALID_CONSTANT);
  }

  /** A message of a kind yet to be found that starts with H goes on with E or T. */
  lemma KindIsHeadOrHttp(c: Conf, x: char)
    requires Untold(c) && x != 'E' && x != 'T'
    ensures FailedWith(Run(c, ['H', x]), INVALID_CONSTANT)
  {
    hide Dispatch, Apply, Push, Run;
    var bs := ['H', x];
    UntoldDispatch(c.p, 'H');
    var d := AgainStep(c, bs, c.p.(state := Beginning(StartReqOrRes)), true);
    UntoldDispatch(d.p, 'H');
    var e := GoStep(d, bs, Fresh(d.p, Beginning(ResOrRespH)));
    assert bs[1..] == [x];
    StartBad(e.p, x);
    StepBad(e, x, e.p, INVALID_CONSTANT);
  }
}
