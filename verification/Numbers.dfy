/** The two numbers that frame a body are accepted exactly when they fit, and stored as they are. */
module Numbers {
  import opened Chars
  import opened Options
  import opened ParserTypes
  import opened Transition
  import opened ParserRun
  import opened Walk

  /** The decimal value of a string of digits, spaces left out. */
  function DecVal(s: string): nat
    requires forall x <- s :: IsNum(x) || x == ' '
  {
    if s == "" then 0
    else
      var n, x := DecVal(s[..|s| - 1]), s[|s| - 1];
      assert IsNum(x) || x == ' ';
      if x == ' ' then n else n * 10 + DigitVal(x)
  }

  function HexVal(s: string): nat
    requires forall x <- s :: IsHex(x)
  {
    if s == "" then 0
    else
      var x := s[|s| - 1];
      assert IsHex(x);
      HexVal(s[..|s| - 1]) * 16 + Unhex(x)
  }

  /** The largest Content-Length: every number up to it passes the check before each digit, and no larger one. */
  const MAX_CONTENT_LENGTH: int := 9223372036854775799

  lemma FirstDigit(p: Parser, x: char)
    requires p.state == InValue(HeaderValueStart) && p.headerState.ContentLength? && IsNum(x)
    ensures Dispatch(p, x) == Go(p.(state := InValue(HeaderValue), index := 0, contentLength := DigitVal(x))).(mark := Some(Value))
  {
  }

  lemma NextDigit(p: Parser, x: char)
    requires p.state == InValue(HeaderValue) && p.headerState.ContentLength? && (IsNum(x) || x == ' ')
    ensures Dispatch(p, x) ==
            if x == ' ' then Go(p)
            else if p.contentLength > 922337203685477579 then Bad(p, HUGE_CONTENT_LENGTH)
            else Go(p.(contentLength := p.contentLength * 10 + DigitVal(x)))
  {
  }

  lemma DecValLast(s: string)
    requires s != "" && forall x <- s :: IsNum(x) || x == ' '
    ensures var t, x := s[..|s| - 1], s[|s| - 1];
            && (forall y <- t :: IsNum(y) || y == ' ')
            && DecVal(s) == (if x == ' ' then DecVal(t) else DecVal(t) * 10 + DigitVal(x)) && (t == "" ==> DecVal(t) == 0)
            && (IsNum(x) ==> x != ' ' && 0 <= DigitVal(x) <= 9)
  {
    assert forall y <- s[..|s| - 1] :: y in s;
  }

  /** A Content-Length value of digits, with spaces allowed after the first, is accepted if and only if
      it is at most 9223372036854775799; the length stored is its value. */
  lemma {:induction false} ContentLengthExact(c: Conf, s: string)
    requires c.halt.Running? && c.p.state == InValue(HeaderValueStart) && c.p.headerState.ContentLength? && c.open.None?
    requires s != "" && IsNum(s[0]) && forall x <- s :: IsNum(x) || x == ' '
    ensures var d := Run(c, s);
            if DecVal(s) <= MAX_CONTENT_LENGTH
            then At(d, c.p.(state := InValue(HeaderValue), index := 0, contentLength := DecVal(s)),
                    Some(Value), Push(c.trace, Data(Value, s)), c.count + |s|)
            else d.halt.Failed? && d.p.errno.HUGE_CONTENT_LENGTH?
    decreases |s|
  {
    hide Dispatch, Apply, Push, Run, DecVal, IsNum;
    var n := |s| - 1;
    var x := s[n];
    assert IsNum(x) || x == ' ';
    DecValLast(s);
    if n == 0 {
      assert s == [x] && s[..0] == "";
      FirstDigit(c.p, x);
      StepMark(c, x, c.p.(state := InValue(HeaderValue), index := 0, contentLength := DigitVal(x)), Value);
    } else {
      var t := s[..n];
      assert t[0] == s[0] && s == t + [x];
      ContentLengthExact(c, t);
      RunAppend(c, t, [x]);
      var d := Run(c, t);
      if d.halt.Running? {
        NextDigit(d.p, x);
        if Dispatch(d.p, x).ctl.Next? {
          StepGo(d, x, Dispatch(d.p, x).p);
          PushTwice(c.trace, Value, t, [x]);
        } else {
          RunOne(d, x);
          ApplyKeepsState(d, Dispatch(d.p, x), x);
          ApplyNext(d, x);
        }
      } else {
        RunHalted(d, [x]);
      }
    }
  }

  lemma FirstHex(p: Parser, x: char)
    requires p.state == InChunkSize(ChunkSizeStart) && IsHex(x)
    ensures Dispatch(p, x) == Go(p.(contentLength := Unhex(x), state := InChunkSize(ChunkSize)))
  {
  }

  lemma NextHex(p: Parser, x: char)
    requires p.state == InChunkSize(ChunkSize) && IsHex(x)
    ensures Dispatch(p, x) ==
            if p.contentLength > (INT64_MAX - Unhex(x)) / 16 then Bad(p, HUGE_CHUNK_SIZE)
            else Go(p.(contentLength := p.contentLength * 16 + Unhex(x)))
  {
  }

  lemma HexFits(n: int, d: int)
    requires 0 <= d < 16
    ensures n > (INT64_MAX - d) / 16 <==> n * 16 + d > INT64_MAX
  {
  }

  /** A chunk size in hexadecimal is accepted if and only if it fits int64, and is stored as it is. */
  lemma {:induction false} ChunkSizeExact(c: Conf, s: string)
    requires c.halt.Running? && c.p.state == InChunkSize(ChunkSizeStart) && c.open.None?
    requires s != "" && forall x <- s :: IsHex(x)
    ensures var d := Run(c, s);
            if HexVal(s) <= INT64_MAX
            then At(d, c.p.(state := InChunkSize(ChunkSize), contentLength := HexVal(s)), None, c.trace, c.count + |s|)
            else d.halt.Failed? && d.p.errno.HUGE_CHUNK_SIZE?
    decreases |s|
  {
    hide Dispatch, Apply, Push;
    var n := |s| - 1;
    var x := s[n];
    assert IsHex(x);
    if n == 0 {
      assert s == [x] && s[..0] == "" && HexVal(s) == Unhex(x);
      FirstHex(c.p, x);
      StepGo(c, x, Dispatch(c.p, x).p);
    } else {
      var t := s[..n];
      assert s == t + [x];
      ChunkSizeExact(c, t);
      RunAppend(c, t, [x]);
      var d := Run(c, t);
      HexFits(HexVal(t), Unhex(x));
      if d.halt.Running? {
        NextHex(d.p, x);
        if Dispatch(d.p, x).ctl.Next? {
          StepGo(d, x, Dispatch(d.p, x).p);
        } else {
          RunOne(d, x);
          ApplyKeepsState(d, Dispatch(d.p, x), x);
          ApplyNext(d, x);
        }
      } else {
        RunHalted(d, [x]);
      }
    }
  }
}
