/** Blocks of header lines, those behind a request or status line and those behind the last chunk alike: what they
    report, and what they say about the body. */
module HeaderBlocks {
  import opened Chars
  import opened Options
  import opened ParserTypes
  import opened Transition
  import opened ParserRun
  import opened Execute
  import opened Numbers
  import opened Walk
  import opened HeaderLines

  /** A line that continues the value before it. */
  datatype Fold = Fold(ws: string, text: string, eol: string)

  datatype Line = Line(field: string, ows: string, value: string, eol: string, folds: seq<Fold>)

  predicate Names(l: Line, literal: string) {
    LowerAll(l.field) == literal
  }

  predicate IsLength(v: string) {
    v != "" && IsNum(v[0]) && (forall x <- v :: IsNum(x) || x == ' ') && DecVal(v) <= MAX_CONTENT_LENGTH
  }

  predicate IsSolid(v: string) {
    v != "" && IsText(v) && v[0] != ' ' && v[0] != HT
  }

  predicate ValueOk(l: Line) {
    if Names(l, CONTENT_LENGTH) then IsLength(l.value) && l.folds == []
    else if Names(l, TRANSFER_ENCODING) then IsSolid(l.value) && !CodingState(l.value).GeneralAndQuoteAndEscape?
    else if Names(l, UPGRADE) then IsSolid(l.value) && !Quoting(l.value[1..]).GeneralAndQuoteAndEscape?
    else IsValue(l.value)
  }

  /** An empty line that ends in LF alone cannot be continued: that LF is taken for the end of the value. */
  predicate FoldsOk(text: string, eol: string, folds: seq<Fold>)
    decreases |folds|
  {
    folds == []
    || (!(text == "" && eol == [LF]) && folds[0].ws != "" && IsOws(folds[0].ws) && IsValue(folds[0].text) && IsEol(folds[0].eol)
        && FoldsOk(folds[0].text, folds[0].eol, folds[1..]))
  }

  predicate LineOk(l: Line) {
    IsName(l.field) && IsOws(l.ows) && IsEol(l.eol) && ValueOk(l) && FoldsOk(l.value, l.eol, l.folds)
  }

  predicate LinesOk(ls: seq<Line>) {
    forall l <- ls :: LineOk(l)
  }

  function FoldsText(folds: seq<Fold>): string {
    if folds == [] then "" else folds[0].ws + folds[0].text + folds[0].eol + FoldsText(folds[1..])
  }

  function LineText(l: Line): string {
    HeaderLine(l.field, l.ows, l.value, l.eol) + FoldsText(l.folds)
  }

  function LinesText(ls: seq<Line>): string {
    if ls == [] then "" else LinesText(ls[..|ls| - 1]) + LineText(ls[|ls| - 1])
  }

  /** The value that a folded line stands for: each fold counts as one space. */
  function Unfolded(v: string, folds: seq<Fold>): string
    decreases |folds|
  {
    if folds == [] then v else Unfolded(v + " " + folds[0].text, folds[1..])
  }

  function LinesEvents(ls: seq<Line>): seq<Event> {
    if ls == [] then []
    else
      var l := ls[|ls| - 1];
      LinesEvents(ls[..|ls| - 1]) + [Data(Field, l.field), Data(Value, Unfolded(l.value, l.folds))]
  }

  // What the lines say about the body.

  predicate Chunks(l: Line) {
    Names(l, TRANSFER_ENCODING) && IsChunked(LowerAll(l.value))
  }

  predicate AnyChunked(ls: seq<Line>) {
    exists l <- ls :: Chunks(l)
  }

  predicate AnyUpgrade(ls: seq<Line>) {
    exists l <- ls :: Names(l, UPGRADE)
  }

  /** The last Content-Length, if there is one. */
  function LengthOf(ls: seq<Line>, none: int): int
    requires LinesOk(ls)
  {
    if ls == [] then none
    else
      var l := ls[|ls| - 1];
      assert LineOk(l);
      if Names(l, CONTENT_LENGTH) then DecVal(l.value) else LengthOf(ls[..|ls| - 1], none)
  }

  /** The parser has read the lines, and expects another line or a continuation of the last one. */
  predicate Headed(q: Parser, p: Parser, ls: seq<Line>)
    requires LinesOk(ls)
  {
    && (q.state == InField(HeaderFieldStart) || q.state == InValue(HeaderValueLws))
    && q == p.(state := q.state, headerState := q.headerState, index := q.index, contentLength := LengthOf(ls, p.contentLength),
               msg := p.msg.(chunked := p.msg.chunked || AnyChunked(ls), upgradeFlag := p.msg.upgradeFlag || AnyUpgrade(ls)))
  }

  // One line.

  lemma LiteralsDiffer()
    ensures CONTENT_LENGTH != TRANSFER_ENCODING && CONTENT_LENGTH != UPGRADE && TRANSFER_ENCODING != UPGRADE
    ensures Ordinary(General) && Ordinary(MatchingChunked) && Ordinary(HeaderState.Chunked)
  {
    assert |CONTENT_LENGTH| == 14 && |TRANSFER_ENCODING| == 17 && |UPGRADE| == 7;
  }

  lemma OnlyNamed(g: string)
    ensures Ordinary(Recognised(g)) <==> g != CONTENT_LENGTH && g != TRANSFER_ENCODING && g != UPGRADE
  {
    assert g <= CONTENT_LENGTH && |g| == |CONTENT_LENGTH| <==> g == CONTENT_LENGTH;
    assert g <= TRANSFER_ENCODING && |g| == |TRANSFER_ENCODING| <==> g == TRANSFER_ENCODING;
    assert g <= UPGRADE && |g| == |UPGRADE| <==> g == UPGRADE;
  }

  lemma QuotingIsOrdinary(v: string)
    ensures Ordinary(Quoting(v))
  {
  }

  lemma CodingIsOrdinary(v: string)
    requires v != ""
    ensures Ordinary(CodingState(v))
  {
    hide Coding;
    CodingMeans(v);
  }

  lemma One(l: Line)
    requires LineOk(l)
    ensures LinesOk([l]) && forall n :: LengthOf([l], n) == if Names(l, CONTENT_LENGTH) then DecVal(l.value) else n
    ensures (AnyChunked([l]) <==> Chunks(l)) && (AnyUpgrade([l]) <==> Names(l, UPGRADE))
  {
    hide LineOk, Chunks, Names;
    var ls := [l];
    assert l in ls && ls[..|ls| - 1] == [];
  }

  /** The first, and mostly the only, line of a header. */
  lemma RunFirst(c: Conf, l: Line)
    requires c.halt.Running? && c.open.None? && c.p.state == InField(HeaderFieldStart) && LineOk(l) && LinesOk([l])
    ensures var line := HeaderLine(l.field, l.ows, l.value, l.eol);
            var d := Run(c, line);
            && At(d, d.p, None, Push(Push(c.trace, Data(Field, l.field)), Data(Value, l.value)), c.count + |line|)
            && Headed(d.p, c.p, [l])
            && (!(l.value == "" && l.eol == [LF]) ==> d.p.state == InValue(HeaderValueLws))
            && (!Names(l, CONTENT_LENGTH) && d.p.state.InValue? ==> Ordinary(d.p.headerState))
  {
    hide Dispatch, Apply, Push, Run, IsName, IsOws, IsEol, Recognised, Ordinary, LowerAll, Quoting, IsText, CodingState,
      IsValue, HeaderLine, FoldsOk, DecVal, IsChunked, IsNum;
    One(l);
    LiteralsDiffer();
    OnlyNamed(LowerAll(l.field));
    if Names(l, CONTENT_LENGTH) {
      RunLengthHeader(c, l.field, l.ows, l.value, l.eol);
    } else if Names(l, TRANSFER_ENCODING) {
      CodingRecognition(c, l.field, l.ows, l.value, l.eol);
      CodingIsOrdinary(l.value);
    } else if Names(l, UPGRADE) {
      RunUpgradeHeader(c, l.field, l.ows, l.value, l.eol);
      QuotingIsOrdinary(l.value[1..]);
    } else {
      RunHeader(c, l.field, l.ows, l.value, l.eol);
      QuotingIsOrdinary(l.value);
    }
  }

  lemma FoldDispatch(p: Parser, x: char)
    requires p.state == InValue(HeaderValueLws) && (x == ' ' || x == HT)
    ensures Dispatch(p, x) == Out(p.(state := InValue(HeaderValueStart)), None, Keep, [Data(Value, " ")], false, Next)
  {
  }

  /** One fold: a space, and the text of the line. */
  lemma RunFold(c: Conf, f: Fold)
    requires c.halt.Running? && c.open.None? && c.p.state == InValue(HeaderValueLws) && Ordinary(c.p.headerState)
    requires f.ws != "" && IsOws(f.ws) && IsValue(f.text) && IsEol(f.eol)
    ensures var text := f.ws + f.text + f.eol;
            At(Run(c, text), Ordinarily(c.p, f.text, f.eol), None, Push(c.trace, Data(Value, " " + f.text)), c.count + |text|)
  {
    hide Dispatch, Apply, Push, Run, IsValue, IsEol, Ordinary, Idle, Quoting;
    var x, ws := f.ws[0], f.ws[1..];
    assert x in f.ws;
    FoldDispatch(c.p, x);
    var q := c.p.(state := InValue(HeaderValueStart));
    StepCall(c, x, q, Data(Value, " "), false);
    var d := Run(c, [x]);
    forall y <- ws
      ensures Dispatch(q, y) == Go(q)
    {
      assert y in f.ws;
      ValueDispatch(q, y);
    }
    IdleBecause(q, ws);
    IdleOrEmpty(d, ws);
    RunValue(Run(d, ws), f.text, f.eol);
    RunAppend(c, [x], ws);
    assert [x] + ws == f.ws;
    RunAppend(c, f.ws, f.text + f.eol);
    assert f.ws + (f.text + f.eol) == f.ws + f.text + f.eol;
    PushTwice(c.trace, Value, " ", f.text);
  }

  /** The folds of a value that stands at the end of the trace. */
  lemma {:induction false} RunFolds(c: Conf, trace: seq<Event>, v: string, last: string, eol: string, folds: seq<Fold>)
    requires c.halt.Running? && c.open.None? && FoldsOk(last, eol, folds)
    requires c.p.state == InField(HeaderFieldStart) || c.p.state == InValue(HeaderValueLws)
    requires !(last == "" && eol == [LF]) && folds != [] ==> c.p.state == InValue(HeaderValueLws) && Ordinary(c.p.headerState)
    requires c.trace == Push(trace, Data(Value, v))
    ensures var d := Run(c, FoldsText(folds));
            && At(d, d.p, None, Push(trace, Data(Value, Unfolded(v, folds))), c.count + |FoldsText(folds)|)
            && d.p == c.p.(state := d.p.state, headerState := d.p.headerState, index := d.p.index)
            && (d.p.state == InField(HeaderFieldStart) || d.p.state == InValue(HeaderValueLws))
    decreases |folds|
  {
    hide Dispatch, Apply, Push, Run, IsValue, IsEol, IsOws, Ordinary, Quoting;
    if folds == [] {
      RunNothing(c);
    } else {
      var f := folds[0];
      var text := f.ws + f.text + f.eol;
      RunFold(c, f);
      QuotingIsOrdinary(f.text);
      PushTwice(trace, Value, v, " " + f.text);
      assert v + (" " + f.text) == v + " " + f.text;
      RunFolds(Run(c, text), trace, v + " " + f.text, f.text, f.eol, folds[1..]);
      RunAppend(c, text, FoldsText(folds[1..]));
    }
  }

  /** A header, folded or not, is reported with its value on one line, and says what it says about the body. */
  lemma RunLine(c: Conf, l: Line)
    requires c.halt.Running? && c.open.None? && c.p.state == InField(HeaderFieldStart) && LineOk(l) && LinesOk([l])
    ensures var d := Run(c, LineText(l));
            && At(d, d.p, None, Push(Push(c.trace, Data(Field, l.field)), Data(Value, Unfolded(l.value, l.folds))), c.count + |LineText(l)|)
            && Headed(d.p, c.p, [l])
  {
    hide Dispatch, Apply, Push, Run, IsName, IsOws, IsEol, LowerAll, IsText, CodingState, IsValue, HeaderLine, DecVal,
      IsChunked, IsNum, IsSolid, IsLength, Quoting, LinesOk, LengthOf, Ordinary, AnyChunked, AnyUpgrade;
    var line := HeaderLine(l.field, l.ows, l.value, l.eol);
    RunFirst(c, l);
    RunFolds(Run(c, line), Push(c.trace, Data(Field, l.field)), l.value, l.value, l.eol, l.folds);
    RunAppend(c, line, FoldsText(l.folds));
  }

  /** After a line comes another one, or the blank line. */
  lemma Onward(c: Conf, bs: string) returns (d: Conf)
    requires c.halt.Running? && c.open.None? && bs != "" && bs[0] != ' ' && bs[0] != HT
    requires c.p.state == InField(HeaderFieldStart) || c.p.state == InValue(HeaderValueLws)
    ensures Run(c, bs) == Run(d, bs)
    ensures At(d, c.p.(state := InField(HeaderFieldStart)), None, c.trace, c.count)
  {
    hide Run;
    if c.p.state.InValue? { d := NextLine(c, bs); } else { d := c; }
  }

  lemma LineStarts(l: Line)
    requires LineOk(l)
    ensures LineText(l) != "" && LineText(l)[0] != ' ' && LineText(l)[0] != HT
  {
    hide ValueOk, FoldsOk;
    assert LineText(l)[0] == l.field[0];
    assert IsToken(l.field[0]);
  }

  lemma LinesSnoc(ls: seq<Line>)
    requires LinesOk(ls) && ls != []
    ensures var t, l := ls[..|ls| - 1], ls[|ls| - 1];
            && LinesOk(t) && LinesOk([l]) && LineOk(l)
            && (AnyChunked(ls) <==> AnyChunked(t) || AnyChunked([l])) && (AnyUpgrade(ls) <==> AnyUpgrade(t) || AnyUpgrade([l]))
            && forall n :: LengthOf(ls, n) == LengthOf([l], LengthOf(t, n))
  {
    hide LineOk, Chunks, Names;
    var t, l := ls[..|ls| - 1], ls[|ls| - 1];
    assert ls == t + [l] && l in ls;
    One(l);
    assert forall x :: x in ls <==> x in t || x in [l];
  }

  lemma {:induction false} RunLines(c: Conf, ls: seq<Line>)
    requires c.halt.Running? && c.open.None? && c.p.state == InField(HeaderFieldStart) && LinesOk(ls)
    ensures var d := Run(c, LinesText(ls));
            At(d, d.p, None, PushAll(c.trace, LinesEvents(ls)), c.count + |LinesText(ls)|) && Headed(d.p, c.p, ls)
    decreases |ls|
  {
    hide Dispatch, Apply, Push, PushAll, Run, LinesOk, LineOk, LineText, Unfolded, AnyChunked, AnyUpgrade, LengthOf;
    if ls == [] {
      RunNothing(c);
      PushNone(c.trace);
      NoLines(c.p);
    } else {
      var t, l := ls[..|ls| - 1], ls[|ls| - 1];
      LinesSnoc(ls);
      RunLines(c, t);
      var d := Run(c, LinesText(t));
      LineStarts(l);
      var e := Onward(d, LineText(l));
      RunLine(e, l);
      RunAppend(c, LinesText(t), LineText(l));
      PushAllTwo(c.trace, LinesEvents(t), Data(Field, l.field), Data(Value, Unfolded(l.value, l.folds)));
    }
  }

  lemma NoLines(p: Parser)
    requires LinesOk([])
    ensures LengthOf([], p.contentLength) == p.contentLength && !AnyChunked([]) && !AnyUpgrade([])
  {
  }

  lemma PushAllTwo(t: seq<Event>, es: seq<Event>, a: Event, b: Event)
    ensures PushAll(t, es + [a, b]) == Push(Push(PushAll(t, es), a), b)
  {
    hide Push;
    PushAllAppend(t, es, [a, b]);
    assert [a, b][1..] == [b];
    PushOne(Push(PushAll(t, es), a), b);
  }

  lemma {:induction false} PushAllAppend(t: seq<Event>, a: seq<Event>, b: seq<Event>)
    ensures PushAll(t, a + b) == PushAll(PushAll(t, a), b)
    decreases |a|
  {
    hide Push;
    if a == [] {
      assert a + b == b;
    } else {
      assert (a + b)[1..] == a[1..] + b;
      PushAllAppend(Push(t, a[0]), a[1..], b);
    }
  }

  // The blank line.

  lemma BlankDispatch(p: Parser)
    ensures p.state == InField(HeaderFieldStart) ==> Dispatch(p, CR) == Go(p.(state := AtEnd(HeadersAlmostDone)))
    ensures p.state == InField(HeaderFieldStart) ==> Dispatch(p, LF) == Redo(p.(state := AtEnd(HeadersAlmostDone))).(calls := [])
    ensures p.state == AtEnd(HeadersAlmostDone) && p.msg.trailing ==>
              Dispatch(p, LF) == Redo(p.(state := InBody(MessageDone))).(calls := [ChunkComplete])
    ensures p.state == AtEnd(HeadersAlmostDone) && !p.msg.trailing ==>
              Dispatch(p, LF) == Redo(p.(state := AtEnd(HeadersDone), msg := Announced(p.msg))).(calls := [HeadersComplete])
  {
  }

  /** What the end of the headers settles: whether the connection leaves HTTP, and whether a body is to be skipped. */
  function Announced(m: Message): Message {
    m.(upgrade := m.upgradeFlag || m.verb == CONNECT, skipBody := m.skipBody || m.bodiless)
  }

  lemma RunBlank(c: Conf, eol: string) returns (d: Conf)
    requires c.halt.Running? && c.open.None? && IsEol(eol)
    requires c.p.state == InField(HeaderFieldStart) || c.p.state == InValue(HeaderValueLws)
    ensures Run(c, eol) == Run(d, [LF])
    ensures At(d, c.p.(state := AtEnd(HeadersAlmostDone)), None, c.trace, c.count + |eol| - 1)
  {
    hide Dispatch, Apply, Push, Run;
    var e := Onward(c, eol);
    BlankDispatch(e.p);
    if eol == CRLF {
      StepGo(e, CR, e.p.(state := AtEnd(HeadersAlmostDone)));
      RunAppend(e, [CR], [LF]);
      assert [CR] + [LF] == CRLF;
      d := Run(e, [CR]);
    } else {
      d := StepRedo(e, eol, e.p.(state := AtEnd(HeadersAlmostDone)), []);
    }
  }
}
