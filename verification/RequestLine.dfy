/** The request line: what the parser takes for one, and what it reports and stores. */
module RequestLines {
  import opened Chars
  import opened Options
  import opened ParserTypes
  import opened Transition
  import opened ParserRun
  import opened Execute
  import opened Numbers
  import opened Walk
  import opened Methods
  import opened HeaderLines
  import opened RequestTargets

  // The target.

  /** The parser has read the bytes `t` of a target since `c`. */
  ghost predicate Under(d: Conf, c: Conf, u: UrlStep, t: string) {
    At(d, c.p.(state := InUrl(u)), Some(Url), Push(c.trace, Data(Url, t)), c.count + |t|)
  }

  lemma FirstByte(p: Parser, x: char)
    requires p.state == RequestLine(ReqSpacesBeforeUrl) && x != ' '
    ensures var s := Move(p.msg.verb == CONNECT, Ahead, x);
            if p.msg.verb == CONNECT then Dispatch(p, x) == Redo(p.(state := InUrl(ReqHostStart))).(mark := Some(Url))
            else if s.In? then Dispatch(p, x) == Go(p.(state := InUrl(s.step))).(mark := Some(Url))
            else Dispatch(p, x).ctl.Fail?
  {
  }

  lemma UrlDispatch(p: Parser, connect: bool, x: char)
    requires p.state.InUrl?
    ensures var s, m := Move(connect, In(p.state.url), x), UrlByte(p.state.url, x);
            && (s.In? && !m.Recheck? ==> Dispatch(p, x) == Go(p.(state := InUrl(s.step))))
            && (m.Recheck? ==> Dispatch(p, x) == Redo(p.(state := InUrl(m.step))) && !UrlByte(m.step, x).Recheck? && Move(connect, In(m.step), x) == s)
            && (s.Off? && !m.Recheck? && x != ' ' && x != CR && x != LF ==> Dispatch(p, x).ctl.Fail?)
  {
  }

  /** A pass that looks at the byte again with data open. */
  lemma StepAgain(c: Conf, x: char, q: Parser) returns (d: Conf)
    requires c.halt.Running? && Dispatch(c.p, x) == Redo(q)
    ensures Run(c, [x]) == Run(d, [x]) && At(d, q, c.open, c.trace, c.count)
  {
    hide Dispatch, Push;
    RunStep(c, [x]);
    d := Apply(c, Dispatch(c.p, x), x);
    PushNone(c.trace);
  }

  lemma StepFails(c: Conf, x: char)
    requires c.halt.Running? && Dispatch(c.p, x).ctl.Fail?
    ensures Run(c, [x]).halt.Failed?
  {
    hide Dispatch, Apply;
    RunOne(c, x);
    ApplyNext(c, x);
  }

  lemma RunFirstByte(c: Conf, x: char)
    requires c.halt.Running? && c.open.None? && c.p.state == RequestLine(ReqSpacesBeforeUrl) && x != ' '
    ensures var s, d := Move(c.p.msg.verb == CONNECT, Ahead, x), Run(c, [x]);
            if s.In? then Under(d, c, s.step, [x]) else x != CR && x != LF ==> d.halt.Failed?
  {
    hide Dispatch, Apply, Push, Run, Move;
    FirstByte(c.p, x);
    var s := Move(c.p.msg.verb == CONNECT, Ahead, x);
    if c.p.msg.verb == CONNECT {
      var q := c.p.(state := InUrl(ReqHostStart));
      RunStep(c, [x]);
      var d := Apply(c, Dispatch(c.p, x), x);
      assert At(d, q, Some(Url), Push(c.trace, Data(Url, "")), c.count) by { MarkedRedo(c, x, q); }
      UrlDispatch(q, true, x);
      HostStartMoves(x);
      MoveCases(true, ReqHostStart, x);
      if s.In? {
        StepGo(d, x, q.(state := InUrl(s.step)));
        PushTwice(c.trace, Url, "", [x]);
        assert "" + [x] == [x];
      } else if x != CR && x != LF {
        StepFails(d, x);
      }
    } else if s.In? {
      StepMark(c, x, c.p.(state := InUrl(s.step)), Url);
    } else {
      StepFails(c, x);
    }
  }

  lemma MarkedRedo(c: Conf, x: char, q: Parser)
    requires c.halt.Running? && c.open.None? && Dispatch(c.p, x) == Redo(q).(mark := Some(Url))
    ensures At(Apply(c, Dispatch(c.p, x), x), q, Some(Url), Push(c.trace, Data(Url, "")), c.count)
  {
    hide Dispatch, Push;
    PushNone(Push(c.trace, Data(Url, "")));
  }

  lemma HostStartMoves(x: char)
    ensures Move(true, Ahead, x) == Move(true, In(ReqHostStart), x) && !UrlByte(ReqHostStart, x).Recheck?
  {
  }

  lemma RunNextByte(c: Conf, d: Conf, u: UrlStep, t: string, x: char, connect: bool)
    requires Under(d, c, u, t)
    ensures var s, e := Move(connect, In(u), x), Run(d, [x]);
            if s.In? then Under(e, c, s.step, t + [x]) else x != ' ' && x != CR && x != LF ==> e.halt.Failed?
  {
    hide Dispatch, Apply, Push, Run, Move, UrlByte;
    UrlDispatch(d.p, connect, x);
    var s := Move(connect, In(u), x);
    var f := d;
    if UrlByte(u, x).Recheck? {
      f := StepAgain(d, x, d.p.(state := InUrl(UrlByte(u, x).step)));
      UrlDispatch(f.p, connect, x);
    }
    if s.In? {
      StepGo(f, x, d.p.(state := InUrl(s.step)));
      PushTwice(c.trace, Url, t, [x]);
    } else if x != ' ' && x != CR && x != LF {
      MoveCases(connect, f.p.state.url, x);
      StepFails(f, x);
    }
  }

  lemma MoveCases(connect: bool, u: UrlStep, x: char)
    ensures Move(connect, In(u), x).In? || Move(connect, In(u), x).Off?
    ensures Move(connect, Ahead, x).In? || Move(connect, Ahead, x).Off?
  {
  }

  /** While a target is read, the states of the parser follow its bytes; a byte that cannot be in one is an error. */
  lemma {:induction false} RunTarget(c: Conf, t: string)
    requires c.halt.Running? && c.open.None? && c.p.state == RequestLine(ReqSpacesBeforeUrl) && t != "" && t[0] != ' '
    ensures var s, d := Spell(c.p.msg.verb == CONNECT, Ahead, t), Run(c, t);
            if s.In? then Under(d, c, s.step, t) else ' ' !in t && CR !in t && LF !in t ==> d.halt.Failed?
    decreases |t|
  {
    hide Dispatch, Apply, Push, Run, Move;
    var n := |t| - 1;
    var x := t[n];
    var connect := c.p.msg.verb == CONNECT;
    if n == 0 {
      assert t == [x];
      SpellNothing(connect, Ahead);
      RunFirstByte(c, x);
    } else {
      var r := t[..n];
      assert t == r + [x] && r[0] == t[0];
      RunTarget(c, r);
      RunAppend(c, r, [x]);
      var d := Run(c, r);
      var s := Spell(connect, Ahead, r);
      NeverAhead(connect, r);
      if s.In? {
        RunNextByte(c, d, s.step, r, x, connect);
      } else {
        OffStays(connect, x);
        if d.halt.Failed? { RunHalted(d, [x]); }
      }
    }
  }

  lemma OffStays(connect: bool, x: char)
    ensures Move(connect, Off, x) == Off
  {
  }

  lemma SpaceDispatch(p: Parser)
    requires p.state.InUrl?
    ensures MayEnd(p.state.url) && !p.state.url.ReqHost? ==> Dispatch(p, ' ') == Go(p.(state := RequestLine(ReqHttpStart))).(flush := Before(Url))
    ensures p.state.url.ReqHost? ==> Dispatch(p, ' ') == Redo(p.(state := InUrl(ReqHostDone)))
    ensures !MayEnd(p.state.url) ==> Dispatch(p, ' ').ctl.Fail? || (Dispatch(p, ' ').ctl.Next? && Dispatch(p, ' ').p.state.InUrl?)
  {
  }

  /** A space ends a target exactly where it may end. */
  lemma RunTargetEnd(c: Conf, d: Conf, u: UrlStep, t: string)
    requires Under(d, c, u, t)
    ensures var e := Run(d, " ");
            if MayEnd(u) then At(e, c.p.(state := RequestLine(ReqHttpStart)), None, Push(c.trace, Data(Url, t)), c.count + |t| + 1)
            else !(e.halt.Running? && e.p.state == RequestLine(ReqHttpStart))
  {
    hide Dispatch, Apply, Push, Run;
    assert " " == [' '];
    SpaceDispatch(d.p);
    var f := d;
    if u.ReqHost? {
      f := StepAgain(d, ' ', d.p.(state := InUrl(ReqHostDone)));
      SpaceDispatch(f.p);
    }
    if MayEnd(u) {
      StepFlush(f, ' ', f.p.(state := RequestLine(ReqHttpStart)), Url);
    } else {
      RunOne(d, ' ');
      ApplyKeepsState(d, Dispatch(d.p, ' '), ' ');
      ApplyNext(d, ' ');
    }
  }

  /** A word followed by a space is taken for a target if and only if it is one, and is then reported as it stands. */
  lemma TargetExact(c: Conf, t: string)
    requires c.halt.Running? && c.open.None? && c.p.state == RequestLine(ReqSpacesBeforeUrl)
    requires t != "" && ' ' !in t && CR !in t && LF !in t
    ensures var d := Run(c, t + " ");
            if IsTarget(t, c.p.msg.verb == CONNECT)
            then At(d, c.p.(state := RequestLine(ReqHttpStart)), None, Push(c.trace, Data(Url, t)), c.count + |t| + 1)
            else !(d.halt.Running? && d.p.state == RequestLine(ReqHttpStart))
  {
    hide Dispatch, Apply, Push, Run, Move, Spell, IsTarget, MayEnd;
    var connect := c.p.msg.verb == CONNECT;
    SpellExact(connect, t);
    RunTarget(c, t);
    RunAppend(c, t, " ");
    var s := Spell(connect, Ahead, t);
    if s.In? { RunTargetEnd(c, Run(c, t), s.step, t); } else { RunHalted(Run(c, t), " "); }
  }

  /** Well-formed targets are read, whatever stands between a schema and its server. */
  lemma RunWholeTarget(c: Conf, x: Target)
    requires c.halt.Running? && c.open.None? && c.p.state == RequestLine(ReqSpacesBeforeUrl) && TargetOk(x, c.p.msg.verb == CONNECT)
    ensures var t := TargetText(x);
            At(Run(c, t + " "), c.p.(state := RequestLine(ReqHttpStart)), None, Push(c.trace, Data(Url, t)), c.count + |t| + 1)
  {
    hide Dispatch, Apply, Push, Run, Move, Spell, TargetOk, TargetText, MayEnd;
    var connect := c.p.msg.verb == CONNECT;
    var t := TargetText(x);
    SpellTarget(x, connect);
    FirstOfTarget(x, connect);
    RunTarget(c, t);
    RunTargetEnd(c, Run(c, t), Spell(connect, Ahead, t).step, t);
    RunAppend(c, t, " ");
  }

  lemma EolDispatch(p: Parser)
    requires p.state.InUrl? && MayEnd(p.state.url) && !InServer(p.state.url)
    ensures Dispatch(p, CR) == Go(Versionless(p)).(flush := Before(Url)) && Dispatch(p, LF) == Redo(Versionless(p)).(flush := Before(Url))
  {
  }

  /** The line may end with the target, unless that ends in a server; the version is then 0.9. */
  lemma RunVersionless(c: Conf, x: Target, eol: string) returns (d: Conf)
    requires c.halt.Running? && c.open.None? && c.p.state == RequestLine(ReqSpacesBeforeUrl) && TargetOk(x, c.p.msg.verb == CONNECT)
    requires !Bare(x.rest) && IsEol(eol)
    ensures var t := TargetText(x);
            Run(c, t + eol) == Run(d, [LF]) && At(d, Versionless(c.p), None, Push(c.trace, Data(Url, t)), c.count + |t| + |eol| - 1)
  {
    hide Dispatch, Apply, Push, Run, Move, Spell, TargetOk, TargetText, MayEnd;
    var connect := c.p.msg.verb == CONNECT;
    var t := TargetText(x);
    SpellTarget(x, connect);
    FirstOfTarget(x, connect);
    RunTarget(c, t);
    RunAppend(c, t, eol);
    var e := Run(c, t);
    EolDispatch(e.p);
    if eol == CRLF {
      StepFlush(e, CR, Versionless(e.p), Url);
      RunAppend(e, [CR], [LF]);
      assert [CR] + [LF] == CRLF;
      d := Run(e, [CR]);
    } else {
      d := StepRedoFlush(e, eol, Versionless(e.p), Url);
    }
  }

  // The version, in request and status lines alike.

  datatype Part = Major | Minor

  function FirstOf(request: bool, part: Part): State {
    if request then RequestLine(if part.Major? then ReqFirstHttpMajor else ReqFirstHttpMinor)
    else StatusLine(if part.Major? then ResFirstHttpMajor else ResFirstHttpMinor)
  }

  function MoreOf(request: bool, part: Part): State {
    if request then RequestLine(if part.Major? then ReqHttpMajor else ReqHttpMinor)
    else StatusLine(if part.Major? then ResHttpMajor else ResHttpMinor)
  }

  function Stored(m: Message, part: Part, n: nat): Message {
    if part.Major? then m.(major := n) else m.(minor := n)
  }

  function Number(m: Message, part: Part): nat {
    if part.Major? then m.major else m.minor
  }

  predicate IsDigits(s: string) {
    s != "" && (forall x <- s :: IsNum(x)) && (forall x <- s :: IsNum(x) || x == ' ')
  }

  lemma PartDispatch(p: Parser, request: bool, part: Part, x: char)
    requires IsNum(x)
    ensures p.state == FirstOf(request, part) ==> Dispatch(p, x) == Go(As(p, MoreOf(request, part), Stored(p.msg, part, DigitVal(x))))
    ensures p.state == MoreOf(request, part) ==>
              var m := Stored(p.msg, part, Number(p.msg, part) * 10 + DigitVal(x));
              Dispatch(p, x) == if Number(m, part) > 999 then Bad(p.(msg := m), INVALID_VERSION) else Go(p.(msg := m))
  {
  }

  /** A version number is accepted if and only if it is at most 999, and stored as its value. */
  lemma {:induction false} RunPart(c: Conf, request: bool, part: Part, s: string)
    requires c.halt.Running? && c.open.None? && c.p.state == FirstOf(request, part) && IsDigits(s)
    ensures var d := Run(c, s);
            if DecVal(s) <= 999 then At(d, As(c.p, MoreOf(request, part), Stored(c.p.msg, part, DecVal(s))), None, c.trace, c.count + |s|)
            else d.halt.Failed? && d.p.errno.INVALID_VERSION?
    decreases |s|
  {
    hide Dispatch, Apply, Push, Run, DecVal, IsNum;
    var n := |s| - 1;
    var x := s[n];
    assert IsNum(x);
    DecValLast(s);
    if n == 0 {
      assert s == [x] && s[..0] == "";
      PartDispatch(c.p, request, part, x);
      StepGo(c, x, As(c.p, MoreOf(request, part), Stored(c.p.msg, part, DigitVal(x))));
    } else {
      var t := s[..n];
      assert s == t + [x] && IsDigits(t) by { assert forall y <- t :: y in s; }
      RunPart(c, request, part, t);
      RunAppend(c, t, [x]);
      var d := Run(c, t);
      if d.halt.Running? {
        PartDispatch(d.p, request, part, x);
        if Dispatch(d.p, x).ctl.Next? {
          StepGo(d, x, Dispatch(d.p, x).p);
        } else {
          RunOne(d, x);
          ApplyKeepsState(d, Dispatch(d.p, x), x);
          ApplyNext(d, x);
        }
      } else {
        RunHalted(d, [x]);
      }
    }
  }

  lemma DotDispatch(p: Parser, request: bool)
    requires p.state == MoreOf(request, Major)
    ensures Dispatch(p, '.') == Go(p.(state := FirstOf(request, Minor)))
  {
  }

  /** The two numbers of a version. */
  lemma RunVersion(c: Conf, request: bool, major: string, minor: string)
    requires c.halt.Running? && c.open.None? && c.p.state == FirstOf(request, Major)
    requires IsDigits(major) && IsDigits(minor) && DecVal(major) <= 999 && DecVal(minor) <= 999
    ensures var text := major + "." + minor;
            At(Run(c, text), As(c.p, MoreOf(request, Minor), c.p.msg.(major := DecVal(major), minor := DecVal(minor))), None, c.trace, c.count + |text|)
  {
    hide Dispatch, Apply, Push, Run, IsDigits, DecVal;
    RunPart(c, request, Major, major);
    var d := Run(c, major);
    DotDispatch(d.p, request);
    StepGo(d, '.', d.p.(state := FirstOf(request, Minor)));
    assert ['.'] == ".";
    RunPart(Run(d, "."), request, Minor, minor);
    RunAppend(c, major, ".");
    RunAppend(c, major + ".", minor);
  }

  // The rest of the line.

  predicate Spaces(s: string) {
    forall x <- s :: x == ' '
  }

  lemma ProtocolDispatch(p: Parser, x: char)
    ensures p.state == RequestLine(ReqHttpStart) ==> Dispatch(p, 'H') == Go(p.(state := RequestLine(ReqHttpH))) && Dispatch(p, ' ') == Go(p)
    ensures p.state == RequestLine(ReqHttpH) ==> Dispatch(p, x) == Go(p.(state := RequestLine(ReqHttpHT)))
    ensures p.state == RequestLine(ReqHttpHT) ==> Dispatch(p, x) == Go(p.(state := RequestLine(ReqHttpHTT)))
    ensures p.state == RequestLine(ReqHttpHTT) ==> Dispatch(p, x) == Go(p.(state := RequestLine(ReqHttpHTTP)))
    ensures p.state == RequestLine(ReqHttpHTTP) ==> Dispatch(p, x) == Go(p.(state := RequestLine(ReqFirstHttpMajor)))
    ensures p.state == RequestLine(ReqSpacesBeforeUrl) ==> Dispatch(p, ' ') == Go(p)
  {
  }

  /** Spaces, an H, and four bytes that this build does not check. */
  lemma RunProtocol(c: Conf, gap: string, name: string)
    requires c.halt.Running? && c.open.None? && c.p.state == RequestLine(ReqHttpStart) && Spaces(gap) && |name| == 4
    ensures var text := gap + "H" + name;
            At(Run(c, text), c.p.(state := RequestLine(ReqFirstHttpMajor)), None, c.trace, c.count + |text|)
  {
    hide Dispatch, Apply, Push, Run, Idle;
    RunSpaces(c, gap);
    var d := Run(c, gap);
    assert "H" == ['H'] && name == [name[0]] + [name[1]] + [name[2]] + [name[3]];
    ProtocolDispatch(d.p, 'H');
    StepGo(d, 'H', d.p.(state := RequestLine(ReqHttpH)));
    var d1 := Run(d, "H");
    ProtocolDispatch(d1.p, name[0]);
    StepGo(d1, name[0], d.p.(state := RequestLine(ReqHttpHT)));
    var d2 := Run(d1, [name[0]]);
    ProtocolDispatch(d2.p, name[1]);
    StepGo(d2, name[1], d.p.(state := RequestLine(ReqHttpHTT)));
    var d3 := Run(d2, [name[1]]);
    ProtocolDispatch(d3.p, name[2]);
    StepGo(d3, name[2], d.p.(state := RequestLine(ReqHttpHTTP)));
    var d4 := Run(d3, [name[2]]);
    ProtocolDispatch(d4.p, name[3]);
    StepGo(d4, name[3], d.p.(state := RequestLine(ReqFirstHttpMajor)));
    RunAppend(c, gap, "H");
    RunAppend(d1, [name[0]], [name[1]]);
    RunAppend(d1, [name[0]] + [name[1]], [name[2]]);
    RunAppend(d1, [name[0]] + [name[1]] + [name[2]], [name[3]]);
    RunAppend(c, gap + "H", name);
  }

  lemma RunSpaces(c: Conf, gap: string)
    requires c.halt.Running? && c.open.None? && Spaces(gap)
    requires c.p.state == RequestLine(ReqHttpStart) || c.p.state == RequestLine(ReqSpacesBeforeUrl)
    ensures At(Run(c, gap), c.p, None, c.trace, c.count + |gap|)
  {
    hide Dispatch, Apply, Push, Run, Idle;
    forall x <- gap
      ensures Dispatch(c.p, x) == Go(c.p)
    {
      ProtocolDispatch(c.p, x);
    }
    IdleBecause(c.p, gap);
    IdleOrEmpty(c, gap);
  }

  lemma MinorDispatch(p: Parser)
    requires p.state == RequestLine(ReqHttpMinor)
    ensures var oldest := p.msg.major == 0 && p.msg.minor == 9;
            && Dispatch(p, CR) == Go(p.(state := if oldest then AtEnd(HeadersAlmostDone) else RequestLine(ReqLineAlmostDone)))
            && (oldest ==> Dispatch(p, LF) == Redo(p.(state := AtEnd(HeadersAlmostDone))).(calls := []))
            && (!oldest ==> Dispatch(p, LF) == Go(p.(state := InField(HeaderFieldStart))))
  {
  }

  lemma LineDoneDispatch(p: Parser)
    requires p.state == RequestLine(ReqLineAlmostDone)
    ensures Dispatch(p, LF) == Go(p.(state := InField(HeaderFieldStart)))
  {
  }

  /** The end of the line; the headers start behind it. */
  lemma RunRequestLineEnd(c: Conf, eol: string)
    requires c.halt.Running? && c.open.None? && c.p.state == RequestLine(ReqHttpMinor) && IsEol(eol)
    requires !(c.p.msg.major == 0 && c.p.msg.minor == 9)
    ensures At(Run(c, eol), c.p.(state := InField(HeaderFieldStart)), None, c.trace, c.count + |eol|)
  {
    hide Dispatch, Apply, Push, Run;
    MinorDispatch(c.p);
    if eol == CRLF {
      var q := c.p.(state := RequestLine(ReqLineAlmostDone));
      StepGo(c, CR, q);
      LineDoneDispatch(q);
      StepGo(Run(c, [CR]), LF, q.(state := InField(HeaderFieldStart)));
      RunAppend(c, [CR], [LF]);
      assert [CR] + [LF] == CRLF;
    } else {
      StepGo(c, LF, c.p.(state := InField(HeaderFieldStart)));
    }
  }

  /** Version 0.9 has no headers: the end of the line is the end of the head. */
  lemma RunOldestLineEnd(c: Conf, eol: string) returns (d: Conf)
    requires c.halt.Running? && c.open.None? && c.p.state == RequestLine(ReqHttpMinor) && IsEol(eol)
    requires c.p.msg.major == 0 && c.p.msg.minor == 9
    ensures Run(c, eol) == Run(d, [LF]) && At(d, c.p.(state := AtEnd(HeadersAlmostDone)), None, c.trace, c.count + |eol| - 1)
  {
    hide Dispatch, Apply, Push, Run;
    MinorDispatch(c.p);
    if eol == CRLF {
      StepGo(c, CR, c.p.(state := AtEnd(HeadersAlmostDone)));
      RunAppend(c, [CR], [LF]);
      assert [CR] + [LF] == CRLF;
      d := Run(c, [CR]);
    } else {
      d := StepRedo(c, eol, c.p.(state := AtEnd(HeadersAlmostDone)), []);
    }
  }

  // The whole line.

  /** A request line, with the line ends that may come before it. `name` is what stands for "TTP/". */
  datatype Opening = Opening(
    lead: string, verb: Verb, gap: string, target: Target, space: string, name: string, major: string, minor: string, eol: string)

  predicate IsVersion(s: string) {
    IsDigits(s) && DecVal(s) <= 999
  }

  predicate LineEnds(s: string) {
    forall x <- s :: x == CR || x == LF
  }

  predicate OpeningOk(o: Opening) {
    && LineEnds(o.lead)
    && Spaces(o.gap) && TargetOk(o.target, o.verb == CONNECT) && Spaces(o.space) && |o.name| == 4
    && IsVersion(o.major) && IsVersion(o.minor) && IsEol(o.eol)
  }

  /** HTTP/0.9, which has no headers. */
  predicate IsOldest(o: Opening)
    requires OpeningOk(o)
  {
    DecVal(o.major) == 0 && DecVal(o.minor) == 9
  }

  function MethodText(lead: string, m: Verb, gap: string): string {
    lead + VerbString(m) + " " + gap
  }

  function VersionText(o: Opening): string {
    o.space + "H" + o.name + (o.major + "." + o.minor)
  }

  function OpeningText(o: Opening): string {
    MethodText(o.lead, o.verb, o.gap) + (TargetText(o.target) + " ") + VersionText(o) + o.eol
  }

  lemma LeadDispatch(p: Parser, x: char)
    requires p.state == Beginning(PreStartReq)
    ensures x == CR || x == LF ==> Dispatch(p, x) == Go(p)
    ensures x != CR && x != LF ==> Dispatch(p, x) == Redo(p.(state := Beginning(StartReq))).(calls := [MessageBegin])
  {
  }

  lemma VerbStarts(m: Verb)
    ensures VerbString(m) != "" && VerbString(m)[0] != CR && VerbString(m)[0] != LF
  {
  }

  /** The parser behind the method. */
  function Started(p: Parser, m: Verb): Parser {
    p.(state := RequestLine(ReqSpacesBeforeUrl), index := |VerbString(m)| + 1, contentLength := -1, msg := Cleared(p.msg).(verb := m))
  }

  lemma RunWord(c: Conf, m: Verb)
    requires c.halt.Running? && c.open.None? && c.p.state == Beginning(PreStartReq)
    ensures var text := VerbString(m) + " ";
            At(Run(c, text), Started(c.p, m), None, Push(c.trace, MessageBegin), c.count + |text|)
  {
    hide Dispatch, Apply, Push, Run, VerbString, Lead, MethodByte, FirstLetter;
    VerbStarts(m);
    LeadLast(m);
    var text, n := VerbString(m) + " ", |VerbString(m)|;
    LeadDispatch(c.p, text[0]);
    var d := StepRedo(c, text, c.p.(state := Beginning(StartReq)), [MessageBegin]);
    RunSpelling(d, m, n);
    assert VerbString(m)[..n] == VerbString(m);
    var e := Run(d, VerbString(m));
    MethodDispatch(e.p, ' ');
    StepGo(e, ' ', Started(c.p, m));
    assert [' '] == " ";
    RunAppend(d, VerbString(m), " ");
  }

  lemma RunMethodText(c: Conf, lead: string, m: Verb, gap: string)
    requires c.halt.Running? && c.open.None? && c.p.state == Beginning(PreStartReq)
    requires LineEnds(lead) && Spaces(gap)
    ensures At(Run(c, MethodText(lead, m, gap)), Started(c.p, m), None, Push(c.trace, MessageBegin), c.count + |MethodText(lead, m, gap)|)
  {
    hide Dispatch, Apply, Push, Run, Idle, VerbString;
    forall x <- lead
      ensures Dispatch(c.p, x) == Go(c.p)
    {
      LeadDispatch(c.p, x);
    }
    IdleBecause(c.p, lead);
    IdleOrEmpty(c, lead);
    var d := Run(c, lead);
    var text := VerbString(m) + " ";
    RunWord(d, m);
    RunSpaces(Run(d, text), gap);
    RunAppend(c, lead, text);
    RunAppend(c, lead + text, gap);
    assert MethodText(lead, m, gap) == lead + text + gap;
  }

  lemma RunVersionText(c: Conf, o: Opening)
    requires c.halt.Running? && c.open.None? && c.p.state == RequestLine(ReqHttpStart)
    requires Spaces(o.space) && |o.name| == 4 && IsVersion(o.major) && IsVersion(o.minor)
    ensures At(Run(c, VersionText(o)), As(c.p, RequestLine(ReqHttpMinor), c.p.msg.(major := DecVal(o.major), minor := DecVal(o.minor))), None,
               c.trace, c.count + |VersionText(o)|)
  {
    hide Dispatch, Apply, Push, Run, IsDigits, DecVal, Spaces;
    RunProtocol(c, o.space, o.name);
    var text := o.space + "H" + o.name;
    RunVersion(Run(c, text), true, o.major, o.minor);
    RunAppend(c, text, o.major + "." + o.minor);
  }

  /** The parser behind the request line, but for its state. */
  function BehindLine(p: Parser, o: Opening, s: State): Parser
    requires OpeningOk(o)
  {
    p.(state := s, index := |VerbString(o.verb)| + 1, contentLength := -1,
       msg := Cleared(p.msg).(verb := o.verb, major := DecVal(o.major), minor := DecVal(o.minor)))
  }

  /** All of the line but its end: the message has begun, and the target is reported as it stands. */
  lemma RunOpening(c: Conf, o: Opening)
    requires c.halt.Running? && c.open.None? && c.p.state == Beginning(PreStartReq) && OpeningOk(o)
    ensures var text := MethodText(o.lead, o.verb, o.gap) + (TargetText(o.target) + " ") + VersionText(o);
            At(Run(c, text), BehindLine(c.p, o, RequestLine(ReqHttpMinor)), None,
               Push(Push(c.trace, MessageBegin), Data(Url, TargetText(o.target))), c.count + |text|)
  {
    hide Dispatch, Apply, Push, Run, IsVersion, DecVal, Spaces, TargetOk, VerbString, MethodText, VersionText, TargetText, IsDigits;
    RunMethodText(c, o.lead, o.verb, o.gap);
    var d := Run(c, MethodText(o.lead, o.verb, o.gap));
    RunWholeTarget(d, o.target);
    var text := TargetText(o.target) + " ";
    RunVersionText(Run(d, text), o);
    RunAppend(c, MethodText(o.lead, o.verb, o.gap), text);
    RunAppend(c, MethodText(o.lead, o.verb, o.gap) + text, VersionText(o));
  }

  /** A request line: the verb and the version are stored, the target is reported as it stands, and the headers start. */
  lemma RunRequestLine(c: Conf, o: Opening)
    requires c.halt.Running? && c.open.None? && c.p.state == Beginning(PreStartReq) && OpeningOk(o) && !IsOldest(o)
    ensures At(Run(c, OpeningText(o)), BehindLine(c.p, o, InField(HeaderFieldStart)), None,
               Push(Push(c.trace, MessageBegin), Data(Url, TargetText(o.target))), c.count + |OpeningText(o)|)
  {
    hide Dispatch, Apply, Push, Run, IsVersion, DecVal, Spaces, TargetOk, VerbString, MethodText, VersionText, TargetText, IsEol;
    RunOpening(c, o);
    var text := MethodText(o.lead, o.verb, o.gap) + (TargetText(o.target) + " ") + VersionText(o);
    RunRequestLineEnd(Run(c, text), o.eol);
    RunAppend(c, text, o.eol);
  }

  // The other direction: what is taken for a version is one.

  /** What has been read of a version. */
  datatype Reading = Reading(space: string, name: string, major: string, minor: string)

  function Named(w: Reading): string {
    w.space + "H" + w.name
  }

  /** The bytes `v` behind the target have led to the state of `p`. */
  predicate Reads(p: Parser, v: string, w: Reading) {
    && p.state.RequestLine? && Spaces(w.space)
    && match p.state.request
       case ReqHttpStart => v == w.space
       case ReqHttpH => |w.name| == 0 && v == Named(w)
       case ReqHttpHT => |w.name| == 1 && v == Named(w)
       case ReqHttpHTT => |w.name| == 2 && v == Named(w)
       case ReqHttpHTTP => |w.name| == 3 && v == Named(w)
       case ReqFirstHttpMajor => |w.name| == 4 && v == Named(w)
       case ReqHttpMajor => |w.name| == 4 && ReadsNumber(p.msg.major, w.major) && v == Named(w) + w.major
       case ReqFirstHttpMinor => |w.name| == 4 && IsVersion(w.major) && v == Named(w) + (w.major + ".")
       case ReqHttpMinor => |w.name| == 4 && IsVersion(w.major) && ReadsNumber(p.msg.minor, w.minor) && v == Named(w) + (w.major + "." + w.minor)
       case _ => false
  }

  predicate ReadsNumber(n: nat, s: string) {
    IsVersion(s) && n == DecVal(s)
  }

  lemma NumberStarts(x: char)
    requires IsNum(x)
    ensures ReadsNumber(DigitVal(x), [x])
  {
    assert [x][..0] == "";
  }

  lemma NumberGoesOn(n: nat, s: string, x: char)
    requires ReadsNumber(n, s) && IsNum(x) && n * 10 + DigitVal(x) <= 999
    ensures ReadsNumber(n * 10 + DigitVal(x), s + [x])
  {
    hide IsNum, DecVal;
    var t := s + [x];
    assert t[..|t| - 1] == s;
    assert forall y <- t :: y in s || y == x;
    DecValLast(t);
  }

  lemma NameStep(p: Parser, q: Parser, v: string, w: Reading, x: char) returns (u: Reading)
    requires Reads(p, v, w) && !p.state.request.ReqFirstHttpMajor? && !p.state.request.ReqHttpMajor?
    requires !p.state.request.ReqFirstHttpMinor? && !p.state.request.ReqHttpMinor?
    requires Dispatch(p, x) == Go(q)
    ensures Reads(q, v + [x], u)
  {
    hide IsVersion, ReadsNumber, DispatchStart, DispatchMethod;
    if p.state.request.ReqHttpStart? {
      u := if x == 'H' then Reading(w.space, "", "", "") else Reading(w.space + [x], "", "", "");
      assert v + "H" == Named(Reading(w.space, "", "", ""));
    } else {
      u := w.(name := w.name + [x]);
    }
  }

  lemma NumberStep(p: Parser, q: Parser, v: string, w: Reading, x: char) returns (u: Reading)
    requires Reads(p, v, w) && Dispatch(p, x) == Go(q)
    requires p.state.request.ReqFirstHttpMajor? || p.state.request.ReqHttpMajor?
    ensures Reads(q, v + [x], u)
  {
    hide IsVersion, ReadsNumber, IsNum, DecVal;
    if p.state.request.ReqFirstHttpMajor? {
      NumberStarts(x);
      u := w.(major := [x]);
    } else if x == '.' {
      u := w;
      NumberIsVersion(p.msg.major, w.major);
    } else {
      NumberGoesOn(p.msg.major, w.major, x);
      u := w.(major := w.major + [x]);
    }
  }

  lemma NumberIsVersion(n: nat, s: string)
    requires ReadsNumber(n, s)
    ensures IsVersion(s)
  {
  }

  lemma MinorStep(p: Parser, q: Parser, v: string, w: Reading, x: char) returns (u: Reading)
    requires Reads(p, v, w) && Dispatch(p, x) == Go(q) && x != CR && x != LF
    requires p.state.request.ReqFirstHttpMinor? || p.state.request.ReqHttpMinor?
    ensures Reads(q, v + [x], u)
  {
    hide IsVersion, ReadsNumber, IsNum, DecVal;
    if p.state.request.ReqFirstHttpMinor? {
      NumberStarts(x);
      u := w.(minor := [x]);
    } else {
      NumberGoesOn(p.msg.minor, w.minor, x);
      u := w.(minor := w.minor + [x]);
    }
  }

  lemma GoesOrFails(p: Parser, v: string, w: Reading, x: char)
    requires Reads(p, v, w) && x != CR && x != LF
    ensures Dispatch(p, x) == Go(Dispatch(p, x).p) || Dispatch(p, x).ctl.Fail?
  {
    hide IsVersion, ReadsNumber, IsNum, DecVal, Spaces, DispatchMethod;
  }

  lemma {:induction false} ReadsVersion(c: Conf, v: string) returns (w: Reading)
    requires c.halt.Running? && c.open.None? && c.p.state == RequestLine(ReqHttpStart) && CR !in v && LF !in v
    requires !Run(c, v).halt.Failed?
    ensures At(Run(c, v), Run(c, v).p, None, c.trace, c.count + |v|) && Reads(Run(c, v).p, v, w)
    decreases |v|
  {
    hide Dispatch, Apply, Push, Run, Reads;
    if v == "" {
      RunNothing(c);
      w := Reading("", "", "", "");
      ReadsNothing(c.p, w);
    } else {
      var n := |v| - 1;
      var t, x := v[..n], v[n];
      assert v == t + [x] && x in v;
      RunAppend(c, t, [x]);
      var d := Run(c, t);
      if d.halt.Failed? { RunHalted(d, [x]); }
      w := ReadsVersion(c, t);
      GoesOrFails(d.p, t, w, x);
      if Dispatch(d.p, x).ctl.Fail? {
        StepFails(d, x);
      } else {
        var q := Dispatch(d.p, x).p;
        StepGo(d, x, q);
        w := ReadsOn(d.p, q, t, w, x);
      }
    }
  }

  lemma ReadsNothing(p: Parser, w: Reading)
    requires p.state == RequestLine(ReqHttpStart) && w.space == ""
    ensures Reads(p, "", w)
  {
  }

  lemma ReadsOn(p: Parser, q: Parser, v: string, w: Reading, x: char) returns (u: Reading)
    requires Reads(p, v, w) && Dispatch(p, x) == Go(q) && x != CR && x != LF
    ensures Reads(q, v + [x], u)
  {
    hide Dispatch, IsVersion, ReadsNumber, Named, Spaces;
    var r := p.state.request;
    if r.ReqFirstHttpMajor? || r.ReqHttpMajor? {
      u := NumberStep(p, q, v, w, x);
    } else if r.ReqFirstHttpMinor? || r.ReqHttpMinor? {
      u := MinorStep(p, q, v, w, x);
    } else {
      u := NameStep(p, q, v, w, x);
    }
  }

  /** Spaces, an H, any four bytes, and two numbers of at most 999 with a dot between them. */
  ghost predicate IsVersionText(v: string) {
    exists space, name, major, minor ::
      Spaces(space) && |name| == 4 && IsVersion(major) && IsVersion(minor) && v == space + "H" + name + (major + "." + minor)
  }

  /** The state behind a version, which lets the line end. */
  predicate AtVersionEnd(c: Conf) {
    c.halt.Running? && c.p.state == RequestLine(ReqHttpMinor)
  }

  /** What follows the target is taken for a version if and only if it is one. */
  lemma VersionExact(c: Conf, v: string)
    requires c.halt.Running? && c.open.None? && c.p.state == RequestLine(ReqHttpStart) && CR !in v && LF !in v
    ensures AtVersionEnd(Run(c, v)) <==> IsVersionText(v)
  {
    hide Dispatch, Apply, Push, Run, IsVersion, Spaces, Reads;
    if AtVersionEnd(Run(c, v)) {
      var w := ReadsVersion(c, v);
      ReadsWhole(Run(c, v).p, v, w);
    }
    if space, name, major, minor :| Spaces(space) && |name| == 4 && IsVersion(major) && IsVersion(minor) && v == space + "H" + name + (major + "." + minor) {
      RunVersionText(c, Opening("", GET, "", Origin(Rest("", None, None)), space, name, major, minor, ""));
    }
  }

  lemma ReadsWhole(p: Parser, v: string, w: Reading)
    requires Reads(p, v, w) && p.state == RequestLine(ReqHttpMinor)
    ensures IsVersionText(v)
  {
    hide IsVersion, Spaces;
    NumberIsVersion(p.msg.minor, w.minor);
    assert v == w.space + "H" + w.name + (w.major + "." + w.minor);
  }
}
