/** Header lines: which fields the parser recognises, and what it reports. */
module HeaderLines {
  import opened Chars
  import opened Options
  import opened ParserTypes
  import opened Transition
  import opened ParserRun
  import opened Execute
  import opened Numbers
  import opened Walk

  function LowerAll(s: string): string {
    seq(|s|, i requires 0 <= i < |s| => Lower(s[i]))
  }

  function Progress(g: string, literal: string, matching: HeaderState, full: HeaderState): HeaderState {
    if g != "" && g <= literal then if |g| == |literal| then full else matching else General
  }

  /** The header state that a lower-case field name, or the start of one, stands for. */
  function Recognised(g: string): HeaderState {
    if g != "" && g[0] == 'c' then Progress(g, CONTENT_LENGTH, MatchingContentLength, HeaderState.ContentLength)
    else if g != "" && g[0] == 't' then Progress(g, TRANSFER_ENCODING, MatchingTransferEncoding, HeaderState.TransferEncoding)
    else if g != "" && g[0] == 'u' then Progress(g, UPGRADE, MatchingUpgrade, HeaderState.Upgrade)
    else General
  }

  /** The parser has read the field bytes `g`, in lower case. */
  predicate Matches(p: Parser, g: string) {
    && p.state == InField(HeaderField) && g != "" && p.headerState == Recognised(g)
    && (p.headerState.MatchingContentLength? || p.headerState.MatchingTransferEncoding? || p.headerState.MatchingUpgrade?
        ==> p.index == |g| - 1)
  }

  lemma ProgressStep(p: Parser, g: string, y: char, literal: string, matching: HeaderState, full: HeaderState)
    requires g != "" && g <= literal && |g| < |literal| && p.index == |g| - 1 && p.headerState == matching
    ensures Matched(p, y, literal, full).headerState == Progress(g + [y], literal, matching, full)
    ensures Matched(p, y, literal, full).index == |g|
    ensures Matched(p, y, literal, full) == p.(headerState := Matched(p, y, literal, full).headerState, index := |g|)
  {
    var h := g + [y];
    if y == literal[|g|] {
      assert h <= literal by { assert h == literal[..|h|]; }
    }
  }

  lemma FieldByteStep(p: Parser, g: string, x: char)
    requires Matches(p, g) && IsToken(x)
    ensures var q := FieldByte(p, x);
            Matches(q, g + [Lower(x)]) && q == p.(headerState := q.headerState, index := q.index)
  {
    hide IsToken;
    var y := Lower(x);
    assert (g + [y])[0] == g[0];
    assert x != ' ' by { TokenIsNoSpace(x); }
    match p.headerState
    case MatchingContentLength => ProgressStep(p, g, y, CONTENT_LENGTH, MatchingContentLength, HeaderState.ContentLength);
    case MatchingTransferEncoding => ProgressStep(p, g, y, TRANSFER_ENCODING, MatchingTransferEncoding, HeaderState.TransferEncoding);
    case MatchingUpgrade => ProgressStep(p, g, y, UPGRADE, MatchingUpgrade, HeaderState.Upgrade);
    case General => StaysGeneral(g, y);
    case _ => StaysGeneral(g, y);
  }

  lemma TokenIsNoSpace(x: char)
    requires IsToken(x)
    ensures x != ' '
  {
  }

  /** A name that has left the literals, or has used one up, does not come back to them. */
  lemma StaysGeneral(g: string, y: char)
    requires g != "" && (Recognised(g).General? || Recognised(g).ContentLength? || Recognised(g).TransferEncoding? || Recognised(g).Upgrade?)
    ensures Recognised(g + [y]) == General
  {
    var h := g + [y];
    assert h[..|g|] == g;
    forall literal: string | h <= literal
      ensures g <= literal && |g| < |literal|
    {
      assert literal[..|h|] == h;
      assert literal[..|g|] == h[..|g|];
    }
  }

  lemma FieldDispatch(p: Parser, x: char)
    ensures p.state == InField(HeaderFieldStart) && IsToken(x) ==>
              Dispatch(p, x) == Go(p.(index := 0, state := InField(HeaderField), headerState := FieldLetter(x))).(mark := Some(Field))
    ensures p.state == InField(HeaderField) && IsToken(x) ==> Dispatch(p, x) == Go(FieldByte(p, x))
    ensures p.state == InField(HeaderField) ==> Dispatch(p, ':') == Go(p.(state := InValue(HeaderValueStart))).(flush := Before(Field))
  {
    hide FieldByte;
  }

  predicate IsName(f: string) {
    f != "" && forall x <- f :: IsToken(x)
  }

  /** The name of a header is matched without regard to case, and recognised only in full. */
  lemma {:induction false} RunField(c: Conf, f: string)
    requires c.halt.Running? && c.open.None? && c.p.state == InField(HeaderFieldStart) && IsName(f)
    ensures var d := Run(c, f);
            At(d, d.p, Some(Field), Push(c.trace, Data(Field, f)), c.count + |f|)
            && Matches(d.p, LowerAll(f)) && d.p == c.p.(state := InField(HeaderField), headerState := d.p.headerState, index := d.p.index)
    decreases |f|
  {
    hide Dispatch, Apply, Push, FieldByte, Recognised, IsToken;
    var n := |f| - 1;
    var x := f[n];
    assert IsToken(x);
    FieldDispatch(c.p, x);
    if n == 0 {
      assert f == [x] && LowerAll(f) == [Lower(x)];
      StepMark(c, x, c.p.(index := 0, state := InField(HeaderField), headerState := FieldLetter(x)), Field);
      FirstLetterRecognised(x);
    } else {
      var g := f[..n];
      assert f == g + [x];
      RunField(c, g);
      var d := Run(c, g);
      FieldDispatch(d.p, x);
      FieldByteStep(d.p, LowerAll(g), x);
      StepGo(d, x, FieldByte(d.p, x));
      PushTwice(c.trace, Field, g, [x]);
      RunAppend(c, g, [x]);
      assert LowerAll(f) == LowerAll(g) + [Lower(x)];
    }
  }

  lemma FirstLetterRecognised(x: char)
    ensures Recognised([Lower(x)]) == FieldLetter(x)
  {
    var g := [Lower(x)];
    assert g <= CONTENT_LENGTH <==> g[0] == CONTENT_LENGTH[0];
    assert g <= TRANSFER_ENCODING <==> g[0] == TRANSFER_ENCODING[0];
    assert g <= UPGRADE <==> g[0] == UPGRADE[0];
  }

  /** The parser takes a field for Content-Length, Transfer-Encoding or Upgrade exactly when it is that
      name, in any case. */
  lemma FieldRecognition(c: Conf, f: string)
    requires c.halt.Running? && c.open.None? && c.p.state == InField(HeaderFieldStart) && IsName(f)
    ensures var h := Run(c, f).p.headerState;
            && (h.ContentLength? <==> LowerAll(f) == CONTENT_LENGTH)
            && (h.TransferEncoding? <==> LowerAll(f) == TRANSFER_ENCODING)
            && (h.Upgrade? <==> LowerAll(f) == UPGRADE)
  {
    hide Dispatch, Apply, Push, Run, IsToken;
    RunField(c, f);
    var g := LowerAll(f);
    assert g <= CONTENT_LENGTH && |g| == |CONTENT_LENGTH| <==> g == CONTENT_LENGTH;
    assert g <= TRANSFER_ENCODING && |g| == |TRANSFER_ENCODING| <==> g == TRANSFER_ENCODING;
    assert g <= UPGRADE && |g| == |UPGRADE| <==> g == UPGRADE;
  }

  predicate IsOws(s: string) {
    forall x <- s :: x == ' ' || x == HT
  }

  lemma ValueDispatch(p: Parser, x: char)
    ensures p.state == InValue(HeaderValueStart) && (x == ' ' || x == HT) ==> Dispatch(p, x) == Go(p)
    ensures p.state == InValue(HeaderValueStart) && IsPlain(x) && x != ' ' && x != HT && Ordinary(p.headerState) ==>
              Dispatch(p, x) == Go(p.(state := InValue(HeaderValue), index := 0, headerState := General)).(mark := Some(Value))
  {
    hide Matched;
  }

  lemma ValueEnd(p: Parser)
    ensures p.state == InValue(HeaderValue) && !p.headerState.GeneralAndQuoteAndEscape? ==>
              Dispatch(p, CR) == Go(p.(state := InValue(HeaderAlmostDone))).(flush := Before(Value))
    ensures p.state == InValue(HeaderValue) && !p.headerState.GeneralAndQuoteAndEscape? ==>
              Dispatch(p, LF) == Redo(p.(state := InValue(HeaderAlmostDone))).(flush := Before(Value))
    ensures p.state == InValue(HeaderAlmostDone) ==>
              Dispatch(p, LF) == Go(p.(state := InValue(HeaderValueLws), msg := p.msg.(chunked := p.msg.chunked || p.headerState.Chunked?)))
  {
    hide Matched;
  }

  /** A line ends in CR LF or in LF alone. */
  predicate IsEol(e: string) {
    e == CRLF || e == [LF]
  }

  /** A header state under which a value is not interpreted. */
  predicate Ordinary(h: HeaderState) {
    !h.ContentLength? && !h.TransferEncoding? && !h.Upgrade?
  }

  /** The end of a line: a transfer coding that was recognised takes effect. */
  lemma RunEol(c: Conf, eol: string)
    requires c.halt.Running? && c.open == Some(Value) && c.p.state == InValue(HeaderValue)
    requires !c.p.headerState.GeneralAndQuoteAndEscape? && IsEol(eol)
    ensures At(Run(c, eol),
               c.p.(state := InValue(HeaderValueLws), msg := c.p.msg.(chunked := c.p.msg.chunked || c.p.headerState.Chunked?)),
               None, c.trace, c.count + |eol|)
  {
    hide Dispatch, Apply, Push, Run;
    ValueEnd(c.p);
    var q := c.p.(state := InValue(HeaderAlmostDone));
    ValueEnd(q);
    var r := q.(state := InValue(HeaderValueLws), msg := q.msg.(chunked := q.msg.chunked || q.headerState.Chunked?));
    if eol == CRLF {
      StepFlush(c, CR, q, Value);
      StepGo(Run(c, [CR]), LF, r);
      RunAppend(c, [CR], [LF]);
      assert [CR] + [LF] == CRLF;
    } else {
      var d := StepRedoFlush(c, eol, q, Value);
      StepGo(d, LF, r);
    }
  }

  /** A field name, its colon, and the white space before the value. */
  lemma RunName(c: Conf, f: string, ows: string)
    requires c.halt.Running? && c.open.None? && c.p.state == InField(HeaderFieldStart) && IsName(f) && IsOws(ows)
    ensures var d := Run(c, f + ":" + ows);
            At(d, d.p, None, Push(c.trace, Data(Field, f)), c.count + |f| + 1 + |ows|)
            && d.p == c.p.(state := InValue(HeaderValueStart), headerState := Recognised(LowerAll(f)), index := d.p.index)
  {
    hide Dispatch, Apply, Push, Run, Idle, IsToken, Recognised;
    RunField(c, f);
    var d := Run(c, f);
    FieldDispatch(d.p, ':');
    var q := d.p.(state := InValue(HeaderValueStart));
    StepFlush(d, ':', q, Field);
    var e := Run(d, ":");
    assert [':'] == ":";
    forall x <- ows
      ensures Dispatch(q, x) == Go(q)
    {
      ValueDispatch(q, x);
    }
    assert Idle(q, ows) by { IdleBecause(q, ows); }
    IdleOrEmpty(e, ows);
    RunAppend(c, f, ":");
    RunAppend(c, f + ":", ows);
  }

  lemma IdleBecause(p: Parser, s: string)
    requires forall x <- s :: Dispatch(p, x) == Go(p)
    ensures Idle(p, s)
  {
    hide Dispatch;
  }

  function HeaderLine(f: string, ows: string, v: string, eol: string): string {
    f + ":" + ows + v + eol
  }

  // Values with quotes in them.

  /** The header state after one more byte of a value that is not interpreted: inside a quoted string a backslash
      takes the next byte along. */
  function QuoteStep(h: HeaderState, x: char): HeaderState {
    match h
    case GeneralAndQuote => if x == QUOTE then General else if x == BACKSLASH then GeneralAndQuoteAndEscape else h
    case GeneralAndQuoteAndEscape => GeneralAndQuote
    case _ => if x == QUOTE then GeneralAndQuote else General
  }

  function Quoting(v: string): HeaderState {
    if v == "" then General else QuoteStep(Quoting(v[..|v| - 1]), v[|v| - 1])
  }

  predicate IsText(v: string) {
    forall x <- v :: IsHeaderChar(x) && x != CR && x != LF
  }

  predicate IsEscaped(v: string, i: nat)
    requires i <= |v|
  {
    Quoting(v[..i]).GeneralAndQuoteAndEscape?
  }

  /** The bytes from the second one on are header characters on one line, but for those escaped in a quoted string. */
  predicate Passes(v: string) {
    forall i :: 1 <= i < |v| ==> IsEscaped(v, i) || (IsHeaderChar(v[i]) && v[i] != CR && v[i] != LF)
  }

  /** A value as it stands on its line, without the white space before it, that does not end in an escape. */
  predicate IsValue(v: string) {
    (v != "" ==> v[0] != ' ' && v[0] != HT && v[0] != CR && v[0] != LF) && Passes(v) && !Quoting(v).GeneralAndQuoteAndEscape?
  }

  lemma TextDispatch(p: Parser, x: char)
    ensures p.state == InValue(HeaderValueStart) && x != ' ' && x != HT && x != CR && x != LF && Ordinary(p.headerState) ==>
              Dispatch(p, x) == Go(p.(state := InValue(HeaderValue), index := 0, headerState := QuoteStep(General, x))).(mark := Some(Value))
    ensures p.state == InValue(HeaderValue) && IsQuoting(p.headerState)
            && (p.headerState.GeneralAndQuoteAndEscape? || (IsHeaderChar(x) && x != CR && x != LF)) ==>
              Dispatch(p, x) == Go(p.(headerState := QuoteStep(p.headerState, x)))
  {
    hide Matched, IsHeaderChar;
  }

  lemma QuotingValues(v: string)
    ensures IsQuoting(Quoting(v))
  {
  }

  lemma PassesBefore(v: string, n: nat)
    requires Passes(v) && 1 <= n < |v|
    ensures Passes(v[..n]) && (Quoting(v[..n]).GeneralAndQuoteAndEscape? || (IsHeaderChar(v[n]) && v[n] != CR && v[n] != LF))
  {
    hide IsHeaderChar, Quoting;
    var t := v[..n];
    assert IsEscaped(v, n) <==> Quoting(t).GeneralAndQuoteAndEscape?;
    forall i | 1 <= i < n
      ensures IsEscaped(t, i) || (IsHeaderChar(t[i]) && t[i] != CR && t[i] != LF)
    {
      assert t[..i] == v[..i];
      assert IsEscaped(v, i) <==> IsEscaped(t, i);
    }
  }

  lemma {:induction false} RunText(c: Conf, v: string)
    requires c.halt.Running? && c.open.None? && c.p.state == InValue(HeaderValueStart) && Ordinary(c.p.headerState)
    requires v != "" && Passes(v) && v[0] != ' ' && v[0] != HT && v[0] != CR && v[0] != LF
    ensures At(Run(c, v), c.p.(state := InValue(HeaderValue), index := 0, headerState := Quoting(v)), Some(Value),
               Push(c.trace, Data(Value, v)), c.count + |v|)
    decreases |v|
  {
    hide Dispatch, Apply, Push, Run, QuoteStep, IsHeaderChar, Passes;
    var n := |v| - 1;
    var x := v[n];
    if n == 0 {
      assert v == [x] && v[..0] == "";
      TextDispatch(c.p, x);
      StepMark(c, x, c.p.(state := InValue(HeaderValue), index := 0, headerState := QuoteStep(General, x)), Value);
    } else {
      var t := v[..n];
      assert v == t + [x] && t[0] == v[0];
      PassesBefore(v, n);
      RunText(c, t);
      var d := Run(c, t);
      QuotingValues(t);
      TextDispatch(d.p, x);
      StepGo(d, x, d.p.(headerState := QuoteStep(d.p.headerState, x)));
      PushTwice(c.trace, Value, t, [x]);
      RunAppend(c, t, [x]);
    }
  }

  lemma EmptyDispatch(p: Parser)
    requires p.state == InValue(HeaderValueStart) && Ordinary(p.headerState)
    ensures Dispatch(p, CR) ==
            Go(p.(state := InValue(HeaderAlmostDone), index := 0, headerState := General)).(mark := Some(Value), flush := Before(Value))
    ensures Dispatch(p, LF) == Go(p.(state := InField(HeaderFieldStart), index := 0)).(mark := Some(Value), flush := Before(Value))
  {
  }

  /** Where a line that is not interpreted leaves the parser: before a line that may continue it, but for an empty value
      that ends in LF alone. */
  function Ordinarily(p: Parser, v: string, eol: string): Parser {
    if v == "" && eol == [LF] then p.(state := InField(HeaderFieldStart), index := 0)
    else p.(state := InValue(HeaderValueLws), headerState := Quoting(v), index := 0)
  }

  lemma RunEmptyValue(c: Conf, eol: string)
    requires c.halt.Running? && c.open.None? && c.p.state == InValue(HeaderValueStart) && Ordinary(c.p.headerState) && IsEol(eol)
    ensures At(Run(c, eol), Ordinarily(c.p, "", eol), None, Push(c.trace, Data(Value, "")), c.count + |eol|)
  {
    hide Dispatch, Apply, Push, Run, Ordinary;
    EmptyDispatch(c.p);
    if eol == CRLF {
      var q := c.p.(state := InValue(HeaderAlmostDone), index := 0, headerState := General);
      StepEmpty(c, CR, q, Value);
      ValueEnd(q);
      StepGo(Run(c, [CR]), LF, q.(state := InValue(HeaderValueLws)));
      RunAppend(c, [CR], [LF]);
      assert [CR] + [LF] == CRLF;
    } else {
      StepEmpty(c, LF, c.p.(state := InField(HeaderFieldStart), index := 0), Value);
    }
  }

  /** The value of such a line, and its end. */
  lemma RunValue(c: Conf, v: string, eol: string)
    requires c.halt.Running? && c.open.None? && c.p.state == InValue(HeaderValueStart) && Ordinary(c.p.headerState)
    requires IsValue(v) && IsEol(eol)
    ensures At(Run(c, v + eol), Ordinarily(c.p, v, eol), None, Push(c.trace, Data(Value, v)), c.count + |v| + |eol|)
  {
    hide Dispatch, Apply, Push, Run, Passes, Ordinary, IsEol, Quoting;
    if v == "" {
      RunEmptyValue(c, eol);
      assert v + eol == eol;
    } else {
      RunText(c, v);
      QuotingValues(v);
      RunEol(Run(c, v), eol);
      RunAppend(c, v, eol);
    }
  }

  /** Any header that the parser does not interpret, an empty one and one with quoted strings included, is reported
      as it stands and changes nothing else. */
  lemma RunHeader(c: Conf, f: string, ows: string, v: string, eol: string)
    requires c.halt.Running? && c.open.None? && c.p.state == InField(HeaderFieldStart) && IsName(f) && IsOws(ows) && IsValue(v) && IsEol(eol)
    requires Ordinary(Recognised(LowerAll(f)))
    ensures var line := HeaderLine(f, ows, v, eol);
            var h := if v == "" && eol == [LF] then Recognised(LowerAll(f)) else Quoting(v);
            At(Run(c, line), Ordinarily(c.p, v, eol).(headerState := h), None, Push(Push(c.trace, Data(Field, f)), Data(Value, v)), c.count + |line|)
  {
    hide Dispatch, Apply, Push, Run, IsName, Recognised, Ordinary, IsValue, IsEol, Quoting;
    var name := f + ":" + ows;
    RunName(c, f, ows);
    RunValue(Run(c, name), v, eol);
    RunAppend(c, name, v + eol);
    assert name + (v + eol) == HeaderLine(f, ows, v, eol);
  }

  /** A value without quotes. */
  lemma {:induction false} PlainIsValue(v: string)
    requires forall x <- v :: IsPlain(x)
    ensures Passes(v) && Quoting(v) == General
  {
    if v != "" {
      var n := |v| - 1;
      assert IsPlain(v[n]) && forall x <- v[..n] :: x in v;
      PlainIsValue(v[..n]);
      forall i | 1 <= i < |v|
        ensures IsHeaderChar(v[i]) && v[i] != CR && v[i] != LF
      {
        assert IsPlain(v[i]);
      }
    }
  }

  /** A Content-Length header sets the length of the body. */
  lemma RunLengthHeader(c: Conf, f: string, ows: string, v: string, eol: string)
    requires c.halt.Running? && c.open.None? && c.p.state == InField(HeaderFieldStart) && IsName(f) && IsOws(ows) && IsEol(eol)
    requires LowerAll(f) == CONTENT_LENGTH
    requires v != "" && IsNum(v[0]) && (forall x <- v :: IsNum(x) || x == ' ') && DecVal(v) <= MAX_CONTENT_LENGTH
    ensures var q := c.p.(state := InValue(HeaderValueLws), headerState := HeaderState.ContentLength, index := 0, contentLength := DecVal(v));
            var line := HeaderLine(f, ows, v, eol);
            At(Run(c, line), q, None, Push(Push(c.trace, Data(Field, f)), Data(Value, v)), c.count + |line|)
  {
    hide Dispatch, Apply, Push, Run, IsName, IsNum, IsEol;
    var name := f + ":" + ows;
    RunName(c, f, ows);
    var d := Run(c, name);
    ContentLengthExact(d, v);
    RunEol(Run(d, v), eol);
    RunAppend(c, name, v);
    RunAppend(c, name + v, eol);
    assert name + v + eol == HeaderLine(f, ows, v, eol);
  }

  lemma UpgradeDispatch(p: Parser, x: char)
    requires p.state == InValue(HeaderValueStart) && p.headerState.Upgrade? && x != ' ' && x != HT && x != CR && x != LF
    ensures Dispatch(p, x) ==
            Go(p.(state := InValue(HeaderValue), index := 0, msg := p.msg.(upgradeFlag := true), headerState := General)).(mark := Some(Value))
  {
  }

  /** The value of an Upgrade header; its first byte opens no quoted string. */
  lemma {:induction false} RunUpgradeText(c: Conf, v: string)
    requires c.halt.Running? && c.open.None? && c.p.state == InValue(HeaderValueStart) && c.p.headerState.Upgrade?
    requires v != "" && IsText(v) && v[0] != ' ' && v[0] != HT
    ensures At(Run(c, v), c.p.(state := InValue(HeaderValue), index := 0, msg := c.p.msg.(upgradeFlag := true), headerState := Quoting(v[1..])),
               Some(Value), Push(c.trace, Data(Value, v)), c.count + |v|)
    decreases |v|
  {
    hide Dispatch, Apply, Push, Run, QuoteStep, IsHeaderChar;
    var n := |v| - 1;
    var x := v[n];
    assert IsHeaderChar(x) && x != CR && x != LF;
    if n == 0 {
      assert v == [x] && v[1..] == "";
      UpgradeDispatch(c.p, x);
      StepMark(c, x, c.p.(state := InValue(HeaderValue), index := 0, msg := c.p.msg.(upgradeFlag := true), headerState := General), Value);
    } else {
      var t := v[..n];
      assert v == t + [x] && t[0] == v[0] && forall y <- t :: y in v;
      assert v[1..][..n - 1] == t[1..] && v[1..][n - 1] == x;
      RunUpgradeText(c, t);
      var d := Run(c, t);
      QuotingValues(t[1..]);
      TextDispatch(d.p, x);
      StepGo(d, x, d.p.(headerState := QuoteStep(d.p.headerState, x)));
      PushTwice(c.trace, Value, t, [x]);
      RunAppend(c, t, [x]);
    }
  }

  /** An Upgrade header asks to leave HTTP. */
  lemma RunUpgradeHeader(c: Conf, f: string, ows: string, v: string, eol: string)
    requires c.halt.Running? && c.open.None? && c.p.state == InField(HeaderFieldStart) && IsName(f) && IsOws(ows) && IsEol(eol)
    requires LowerAll(f) == UPGRADE
    requires v != "" && IsText(v) && v[0] != ' ' && v[0] != HT && !Quoting(v[1..]).GeneralAndQuoteAndEscape?
    ensures var q := c.p.(state := InValue(HeaderValueLws), headerState := Quoting(v[1..]), index := 0, msg := c.p.msg.(upgradeFlag := true));
            var line := HeaderLine(f, ows, v, eol);
            At(Run(c, line), q, None, Push(Push(c.trace, Data(Field, f)), Data(Value, v)), c.count + |line|)
  {
    hide Dispatch, Apply, Push, Run, IsName, IsText, IsEol, Quoting;
    var name := f + ":" + ows;
    RunName(c, f, ows);
    var d := Run(c, name);
    RunUpgradeText(d, v);
    QuotingValues(v[1..]);
    RunEol(Run(d, v), eol);
    RunAppend(c, name, v);
    RunAppend(c, name + v, eol);
    assert name + v + eol == HeaderLine(f, ows, v, eol);
  }

  /** A line that does not start with white space is not a continuation of the header before it. */
  lemma NextLine(c: Conf, bs: string) returns (d: Conf)
    requires c.halt.Running? && c.open.None? && c.p.state == InValue(HeaderValueLws) && bs != "" && bs[0] != ' ' && bs[0] != HT
    ensures Run(c, bs) == Run(d, bs)
    ensures At(d, c.p.(state := InField(HeaderFieldStart)), None, c.trace, c.count)
  {
    hide Dispatch, Apply, Push, Run;
    LwsDispatch(c.p, bs[0]);
    d := StepRedo(c, bs, c.p.(state := InField(HeaderFieldStart)), []);
  }

  lemma LwsDispatch(p: Parser, x: char)
    requires p.state == InValue(HeaderValueLws) && x != ' ' && x != HT
    ensures Dispatch(p, x) == Redo(p.(state := InField(HeaderFieldStart)))
    ensures Redo(p).(calls := []) == Redo(p)
  {
  }

  // Transfer-Encoding.

  predicate IsChunked(g: string) {
    CHUNKED <= g && forall x <- g[|CHUNKED|..] :: x == ' '
  }

  /** The header state after the bytes `g`, in lower case, of a Transfer-Encoding value. */
  function Coding(g: string): HeaderState {
    if IsChunked(g) then HeaderState.Chunked
    else if g != "" && g <= CHUNKED then MatchingChunked
    else General
  }

  /** The header state after `n` bytes of a Transfer-Encoding value and one more: once it cannot be "chunked" any more,
      quoted strings are followed as in any value. */
  function CodingAfter(h: HeaderState, n: nat, x: char): HeaderState {
    match h
    case MatchingChunked =>
      if n >= |CHUNKED| || Lower(x) != CHUNKED[n] then General
      else if n == |CHUNKED| - 1 then HeaderState.Chunked
      else MatchingChunked
    case Chunked => if x == ' ' then h else General
    case _ => QuoteStep(h, x)
  }

  function CodingState(v: string): HeaderState
    requires v != ""
  {
    if |v| == 1 then if Lower(v[0]) == 'c' then MatchingChunked else General
    else CodingAfter(CodingState(v[..|v| - 1]), |v| - 1, v[|v| - 1])
  }

  predicate Decodes(p: Parser, v: string) {
    p.state == InValue(HeaderValue) && v != "" && p.headerState == CodingState(v) && (p.headerState.MatchingChunked? ==> p.index == |v| - 1)
  }

  lemma CodingDispatch(p: Parser, x: char)
    requires IsHeaderChar(x) && x != CR && x != LF
    ensures p.state == InValue(HeaderValueStart) && p.headerState.TransferEncoding? && x != ' ' && x != HT ==>
              Dispatch(p, x) == Go(p.(state := InValue(HeaderValue), index := 0, headerState := if Lower(x) == 'c' then MatchingChunked else General)).(mark := Some(Value))
    ensures p.state == InValue(HeaderValue) && p.headerState.MatchingChunked? ==> Dispatch(p, x) == Go(Matched(p, Lower(x), CHUNKED, HeaderState.Chunked))
    ensures p.state == InValue(HeaderValue) && p.headerState.Chunked? ==> Dispatch(p, x) == Go(if x != ' ' then p.(headerState := General) else p)
    ensures p.state == InValue(HeaderValue) && (p.headerState.General? || p.headerState.GeneralAndQuote? || p.headerState.GeneralAndQuoteAndEscape?) ==>
              Dispatch(p, x) == Go(p.(headerState := QuoteStep(p.headerState, x)))
  {
    hide Matched, IsHeaderChar;
  }

  lemma FullIsChunked(g: string)
    ensures g <= CHUNKED && |g| == |CHUNKED| <==> g == CHUNKED
    ensures IsChunked(CHUNKED)
    ensures |g| <= |CHUNKED| ==> (IsChunked(g) <==> g == CHUNKED)
  {
    assert CHUNKED[|CHUNKED|..] == "";
  }

  lemma CodingStep(g: string, y: char)
    requires g != ""
    ensures Coding(g).General? ==> Coding(g + [y]).General?
    ensures Coding(g).Chunked? ==> Coding(g + [y]) == if y == ' ' then HeaderState.Chunked else General
    ensures Coding(g).MatchingChunked? ==> g <= CHUNKED && |g| < |CHUNKED|
    ensures Coding(g).MatchingChunked? ==>
              Coding(g + [y]) == if y != CHUNKED[|g|] then General else if |g| + 1 == |CHUNKED| then HeaderState.Chunked else MatchingChunked
  {
    var h := g + [y];
    FullIsChunked(g);
    FullIsChunked(h);
    assert h[..|g|] == g && h[|g|] == y;
    if |h| <= |CHUNKED| {
      assert h <= CHUNKED <==> g <= CHUNKED && y == CHUNKED[|g|];
    } else {
      assert CHUNKED <= h <==> CHUNKED <= g by { assert h[..|CHUNKED|] == g[..|CHUNKED|]; }
      var r := h[|CHUNKED|..];
      assert r == g[|CHUNKED|..] + [y];
      SpacesSnoc(g[|CHUNKED|..], y);
    }
  }

  lemma SpacesSnoc(s: string, y: char)
    ensures (forall x <- s + [y] :: x == ' ') <==> (forall x <- s :: x == ' ') && y == ' '
  {
    var t := s + [y];
    assert t[|s|] == y;
    if forall x <- t :: x == ' ' {
      assert y in t;
      forall x <- s
        ensures x == ' '
      {
        assert x in t;
      }
    }
  }

  lemma CodingValues(g: string)
    ensures Coding(g).General? || Coding(g).MatchingChunked? || Coding(g).Chunked?
  {
  }

  predicate IsQuoting(h: HeaderState) {
    h.General? || h.GeneralAndQuote? || h.GeneralAndQuoteAndEscape?
  }

  /** What the states of the matcher mean. */
  lemma {:induction false} CodingMeans(v: string)
    requires v != ""
    ensures var g := LowerAll(v);
            if Coding(g).General? then IsQuoting(CodingState(v)) else CodingState(v) == Coding(g)
    ensures CodingState(v).MatchingChunked? || CodingState(v).Chunked? || IsQuoting(CodingState(v))
    decreases |v|
  {
    hide Coding;
    var n := |v| - 1;
    if n == 0 {
      assert LowerAll(v) == [Lower(v[0])];
      FirstOfCoding(Lower(v[0]));
    } else {
      var t := v[..n];
      CodingMeans(t);
      assert LowerAll(v) == LowerAll(t) + [Lower(v[n])];
      CodingValues(LowerAll(t));
      CodingStep(LowerAll(t), Lower(v[n]));
      LowerSpace(v[n]);
    }
  }

  lemma CodingByte(p: Parser, v: string, x: char)
    requires Decodes(p, v) && IsHeaderChar(x) && x != CR && x != LF
    ensures var q := Dispatch(p, x).p;
            Dispatch(p, x) == Go(q) && Decodes(q, v + [x]) && q == p.(headerState := q.headerState, index := q.index)
  {
    hide Dispatch, IsHeaderChar, QuoteStep;
    CodingDispatch(p, x);
    CodingMeans(v);
    QuoteStays(p.headerState, x);
    assert (v + [x])[..|v + [x]| - 1] == v;
  }

  lemma QuoteStays(h: HeaderState, x: char)
    ensures IsQuoting(QuoteStep(h, x))
  {
  }

  lemma {:induction false} RunCoding(c: Conf, v: string)
    requires c.halt.Running? && c.open.None? && c.p.state == InValue(HeaderValueStart) && c.p.headerState.TransferEncoding?
    requires v != "" && IsText(v) && v[0] != ' ' && v[0] != HT
    ensures var d := Run(c, v);
            At(d, d.p, Some(Value), Push(c.trace, Data(Value, v)), c.count + |v|)
            && Decodes(d.p, v) && d.p == c.p.(state := InValue(HeaderValue), headerState := d.p.headerState, index := d.p.index)
    decreases |v|
  {
    hide Dispatch, Apply, Push, Run, CodingAfter, IsHeaderChar;
    var n := |v| - 1;
    var x := v[n];
    assert IsHeaderChar(x) && x != CR && x != LF;
    if n == 0 {
      CodingDispatch(c.p, x);
      assert v == [x];
      StepMark(c, x, c.p.(state := InValue(HeaderValue), index := 0, headerState := if Lower(x) == 'c' then MatchingChunked else General), Value);
    } else {
      var t := v[..n];
      assert v == t + [x] && t[0] == v[0] && forall y <- t :: y in v;
      RunCoding(c, t);
      var d := Run(c, t);
      CodingByte(d.p, t, x);
      StepGo(d, x, Dispatch(d.p, x).p);
      PushTwice(c.trace, Value, t, [x]);
      RunAppend(c, t, [x]);
    }
  }

  lemma LowerSpace(x: char)
    ensures Lower(x) == ' ' <==> x == ' '
  {
  }

  lemma FirstOfCoding(y: char)
    ensures Coding([y]) == if y == 'c' then MatchingChunked else General
  {
    FullIsChunked([y]);
    assert [y] <= CHUNKED <==> y == CHUNKED[0];
  }

  /** A Transfer-Encoding header turns chunked framing on exactly when its value is "chunked", in any
      case and with any spaces after it. */
  lemma CodingRecognition(c: Conf, f: string, ows: string, v: string, eol: string)
    requires c.halt.Running? && c.open.None? && c.p.state == InField(HeaderFieldStart) && IsName(f) && IsOws(ows) && IsEol(eol)
    requires LowerAll(f) == TRANSFER_ENCODING
    requires v != "" && IsText(v) && v[0] != ' ' && v[0] != HT && !CodingState(v).GeneralAndQuoteAndEscape?
    ensures var line := HeaderLine(f, ows, v, eol);
            var d := Run(c, line);
            At(d, d.p, None, Push(Push(c.trace, Data(Field, f)), Data(Value, v)), c.count + |line|)
            && d.p == c.p.(state := InValue(HeaderValueLws), headerState := CodingState(v), index := d.p.index,
                           msg := c.p.msg.(chunked := c.p.msg.chunked || IsChunked(LowerAll(v))))
  {
    hide Dispatch, Apply, Push, Run, IsText, IsName, LowerAll, IsChunked, CodingState, IsEol;
    var name := f + ":" + ows;
    RunName(c, f, ows);
    var d := Run(c, name);
    RunCoding(d, v);
    CodingMeans(v);
    RunEol(Run(d, v), eol);
    RunAppend(c, name, v);
    RunAppend(c, name + v, eol);
    assert name + v + eol == HeaderLine(f, ows, v, eol);
  }
}
