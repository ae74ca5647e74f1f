/** The header lines that the parser refuses, and with which error. */
module HeaderFaults {
  import opened Chars
  import opened ParserTypes
  import opened Transition
  import opened ParserRun
  import opened Execute
  import opened Numbers
  import opened HeaderLines
  import opened HeaderBlocks

  predicate FailedWith(c: Conf, e: Errno) {
    c.halt.Failed? && c.p.errno == e
  }

  lemma StepBad(c: Conf, x: char, p: Parser, e: Errno)
    requires c.halt.Running? && Dispatch(c.p, x) == Bad(p, e)
    ensures FailedWith(Run(c, [x]), e)
  {
    hide Dispatch, Apply;
    RunOne(c, x);
    ApplyNext(c, x);
    ApplyKeepsState(c, Dispatch(c.p, x), x);
  }

  lemma NameDispatch(p: Parser, x: char)
    requires p.state.InField? && !IsToken(x)
    ensures (if p.state.field.HeaderFieldStart? then x != CR && x != LF else x != ':') ==> Dispatch(p, x) == Bad(p, INVALID_HEADER_TOKEN)
  {
  }

  lemma ColonIsNoToken()
    ensures !IsToken(':')
  {
  }

  /** A name with a byte in it that is no token byte, or no name at all. */
  lemma {:induction false} BadName(c: Conf, f: string)
    requires c.halt.Running? && c.open.None? && c.p.state == InField(HeaderFieldStart)
    requires !IsName(f) && ':' !in f && CR !in f && LF !in f
    ensures FailedWith(Run(c, f + ":"), INVALID_HEADER_TOKEN)
    ensures f != "" ==> FailedWith(Run(c, f), INVALID_HEADER_TOKEN)
    decreases |f|
  {
    hide Dispatch, Apply, Push, Run, IsToken;
    assert ":" == [':'];
    if f == "" {
      ColonIsNoToken();
      NameDispatch(c.p, ':');
      StepBad(c, ':', c.p, INVALID_HEADER_TOKEN);
      assert f + ":" == ":";
    } else {
      var n := |f| - 1;
      var g, x := f[..n], f[n];
      assert f == g + [x] && x in f;
      RunAppend(c, g, [x]);
      if g == "" {
        RunNothing(c);
        assert !IsToken(x);
        NameDispatch(c.p, x);
        StepBad(c, x, c.p, INVALID_HEADER_TOKEN);
      } else if IsName(g) {
        assert !IsToken(x);
        RunField(c, g);
        var d := Run(c, g);
        NameDispatch(d.p, x);
        StepBad(d, x, d.p, INVALID_HEADER_TOKEN);
      } else {
        BadName(c, g);
        RunHalted(Run(c, g), [x]);
      }
      RunAppend(c, f, ":");
      RunHalted(Run(c, f), ":");
    }
  }

  lemma ValueByteDispatch(p: Parser, x: char)
    requires p.state == InValue(HeaderValue) && !p.headerState.GeneralAndQuoteAndEscape? && !IsHeaderChar(x) && x != CR && x != LF
    ensures Dispatch(p, x) == Bad(p, INVALID_HEADER_TOKEN)
  {
  }

  /** A value with a byte in it that is no header character and is not escaped. */
  lemma {:induction false} BadText(c: Conf, v: string)
    requires c.halt.Running? && c.open.None? && c.p.state == InValue(HeaderValueStart) && Ordinary(c.p.headerState)
    requires v != "" && v[0] != ' ' && v[0] != HT && CR !in v && LF !in v && !Passes(v)
    ensures FailedWith(Run(c, v), INVALID_HEADER_TOKEN)
    decreases |v|
  {
    hide Dispatch, Apply, Push, Run, IsHeaderChar, Quoting;
    var n := |v| - 1;
    assert n > 0;
    var t, x := v[..n], v[n];
    assert v == t + [x] && x in v && t[0] == v[0] && v[0] in v;
    RunAppend(c, t, [x]);
    if Passes(t) {
      RunText(c, t);
      QuotingValues(t);
      OffendsLast(v);
      ValueByteDispatch(Run(c, t).p, x);
      StepBad(Run(c, t), x, Run(c, t).p, INVALID_HEADER_TOKEN);
    } else {
      BadText(c, t);
      RunHalted(Run(c, t), [x]);
    }
  }

  lemma OffendsLast(v: string)
    requires |v| > 1 && Passes(v[..|v| - 1]) && !Passes(v) && CR !in v && LF !in v
    ensures !Quoting(v[..|v| - 1]).GeneralAndQuoteAndEscape? && !IsHeaderChar(v[|v| - 1])
  {
    hide IsHeaderChar, Quoting;
    var n := |v| - 1;
    var t := v[..n];
    assert v[n] in v;
    forall i | 1 <= i < n
      ensures IsEscaped(v, i) || (IsHeaderChar(v[i]) && v[i] != CR && v[i] != LF)
    {
      assert t[..i] == v[..i];
      assert IsEscaped(t, i) <==> IsEscaped(v, i);
    }
    assert IsEscaped(v, n) <==> Quoting(t).GeneralAndQuoteAndEscape?;
  }

  /** A line that is not interpreted is refused exactly when its name is none, or its value has a byte that can be in no
      value; and always as an invalid token. */
  lemma HeaderExact(c: Conf, f: string, ows: string, v: string)
    requires c.halt.Running? && c.open.None? && c.p.state == InField(HeaderFieldStart)
    requires ':' !in f && CR !in f && LF !in f && IsOws(ows) && Ordinary(Recognised(LowerAll(f)))
    requires CR !in v && LF !in v && (v != "" ==> v[0] != ' ' && v[0] != HT)
    ensures var d := Run(c, f + ":" + ows + v);
            if IsName(f) && Passes(v) then d.halt.Running? else FailedWith(d, INVALID_HEADER_TOKEN)
  {
    hide Dispatch, Apply, Push, Run, IsName, Passes, Ordinary, Recognised, LowerAll, IsOws;
    if !IsName(f) {
      BadName(c, f);
      RunAppend(c, f + ":", ows + v);
      RunHalted(Run(c, f + ":"), ows + v);
      assert f + ":" + (ows + v) == f + ":" + ows + v;
    } else {
      RunName(c, f, ows);
      var d := Run(c, f + ":" + ows);
      RunAppend(c, f + ":" + ows, v);
      if v == "" {
        RunNothing(d);
        NothingPasses();
      } else if Passes(v) {
        assert v[0] in v;
        RunText(d, v);
      } else {
        BadText(d, v);
      }
    }
  }

  lemma NothingPasses()
    ensures Passes("")
  {
  }

  // Content-Length.

  lemma LengthDispatch(p: Parser, x: char)
    requires p.headerState.ContentLength? && !IsNum(x)
    ensures p.state == InValue(HeaderValueStart) && x != ' ' && x != HT ==>
              Dispatch(p, x) == Bad(p.(state := InValue(HeaderValue), index := 0), INVALID_CONTENT_LENGTH)
    ensures p.state == InValue(HeaderValue) && x != ' ' && IsHeaderChar(x) && x != CR && x != LF ==>
              Dispatch(p, x) == Bad(p, INVALID_CONTENT_LENGTH)
  {
    hide IsHeaderChar, Matched;
  }

  /** Only digits, and spaces behind the first of them. */
  predicate IsCount(v: string) {
    v != "" && IsNum(v[0]) && forall x <- v :: IsNum(x) || x == ' '
  }

  lemma CountGoesOn(t: string, x: char)
    requires t != ""
    ensures IsCount(t + [x]) <==> IsCount(t) && (IsNum(x) || x == ' ')
  {
    var v := t + [x];
    assert v[|t|] == x && v[0] == t[0];
    if IsCount(v) {
      assert x in v;
      forall y <- t
        ensures IsNum(y) || y == ' '
      {
        assert y in v;
      }
    }
  }

  lemma NoCountOfOne(c: Conf, x: char)
    requires c.halt.Running? && c.p.state == InValue(HeaderValueStart) && c.p.headerState.ContentLength?
    requires x != ' ' && x != HT && !IsCount([x])
    ensures FailedWith(Run(c, [x]), INVALID_CONTENT_LENGTH)
  {
    hide Dispatch, Apply, Push, Run;
    assert forall y <- [x] :: y == x;
    LengthDispatch(c.p, x);
    StepBad(c, x, c.p.(state := InValue(HeaderValue), index := 0), INVALID_CONTENT_LENGTH);
  }

  lemma {:induction false} NoCount(c: Conf, v: string)
    requires c.halt.Running? && c.open.None? && c.p.state == InValue(HeaderValueStart) && c.p.headerState.ContentLength?
    requires v != "" && v[0] != ' ' && v[0] != HT && IsText(v) && !IsCount(v)
    ensures FailedWith(Run(c, v), INVALID_CONTENT_LENGTH) || FailedWith(Run(c, v), HUGE_CONTENT_LENGTH)
    decreases |v|
  {
    hide Dispatch, Apply, Push, Run, IsNum, DecVal, IsHeaderChar;
    var n := |v| - 1;
    var t, x := v[..n], v[n];
    assert v == t + [x] && x in v;
    if n == 0 {
      assert v == [x];
      NoCountOfOne(c, x);
    } else {
      assert t[0] == v[0] && forall y <- t :: y in v;
      CountGoesOn(t, x);
      RunAppend(c, t, [x]);
      var d := Run(c, t);
      if IsCount(t) { ContentLengthExact(c, t); } else { NoCount(c, t); }
      if d.halt.Running? {
        LengthDispatch(d.p, x);
        StepBad(d, x, d.p, INVALID_CONTENT_LENGTH);
      } else {
        RunHalted(d, [x]);
      }
    }
  }

  /** A Content-Length is refused exactly when it is no number, or too large a one. */
  lemma LengthExact(c: Conf, v: string)
    requires c.halt.Running? && c.open.None? && c.p.state == InValue(HeaderValueStart) && c.p.headerState.ContentLength?
    requires v != "" && v[0] != ' ' && v[0] != HT && IsText(v)
    ensures var d := Run(c, v);
            if IsLength(v) then d.halt.Running? && d.p.contentLength == DecVal(v)
            else if IsCount(v) then FailedWith(d, HUGE_CONTENT_LENGTH)
            else FailedWith(d, INVALID_CONTENT_LENGTH) || FailedWith(d, HUGE_CONTENT_LENGTH)
  {
    hide Dispatch, Apply, Push, Run, IsNum, DecVal, IsHeaderChar;
    if IsCount(v) { ContentLengthExact(c, v); } else { NoCount(c, v); }
  }

  // Values that must not be empty.

  function EmptyError(h: HeaderState): Errno
    requires !Ordinary(h)
  {
    if h.ContentLength? then INVALID_CONTENT_LENGTH else if h.TransferEncoding? then INVALID_TRANSFER_ENCODING else INVALID_UPGRADE
  }

  lemma EmptyDispatch(p: Parser, x: char)
    requires p.state == InValue(HeaderValueStart) && !Ordinary(p.headerState) && (x == CR || x == LF)
    ensures Dispatch(p, x) == Bad(p.(state := InValue(HeaderValue), index := 0), EmptyError(p.headerState))
  {
  }

  /** The three headers that are interpreted must have a value. */
  lemma EmptyIsRefused(c: Conf, f: string, ows: string, eol: string)
    requires c.halt.Running? && c.open.None? && c.p.state == InField(HeaderFieldStart) && IsName(f) && IsOws(ows) && IsEol(eol)
    ensures var d, n := Run(c, f + ":" + ows + eol), LowerAll(f);
            && (n == CONTENT_LENGTH ==> FailedWith(d, INVALID_CONTENT_LENGTH))
            && (n == TRANSFER_ENCODING ==> FailedWith(d, INVALID_TRANSFER_ENCODING))
            && (n == UPGRADE ==> FailedWith(d, INVALID_UPGRADE))
  {
    hide Dispatch, Apply, Push, Run, IsName, Recognised, LowerAll, IsOws;
    OnlyNamed(LowerAll(f));
    RecognisedNames();
    RunName(c, f, ows);
    var text := f + ":" + ows;
    var d := Run(c, text);
    RunAppend(c, text, eol);
    if !Ordinary(d.p.headerState) {
      EmptyDispatch(d.p, eol[0]);
      StepBad(d, eol[0], d.p.(state := InValue(HeaderValue), index := 0), EmptyError(d.p.headerState));
      RunAppend(d, [eol[0]], eol[1..]);
      RunHalted(Run(d, [eol[0]]), eol[1..]);
      assert [eol[0]] + eol[1..] == eol;
    }
  }

  lemma RecognisedNames()
    ensures Recognised(CONTENT_LENGTH).ContentLength? && Recognised(TRANSFER_ENCODING).TransferEncoding? && Recognised(UPGRADE).Upgrade?
  {
  }
}
