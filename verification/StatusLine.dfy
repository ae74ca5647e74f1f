/** The status line: what the parser takes for one, and what it reports and stores. */
module StatusLines {
  import opened Chars
  import opened Options
  import opened ParserTypes
  import opened Transition
  import opened ParserRun
  import opened Execute
  import opened Numbers
  import opened Walk
  import opened HeaderLines
  import opened RequestLines
  import HeaderBlocks

  /** A status line, with the line ends that may come before it. `name` is what stands for "TTP/"; without a space
      behind the code there is no reason, which is not the same as an empty one. */
  datatype Status = Status(
    lead: string, name: string, major: string, minor: string, gap: string, code: string, reason: Option<string>, eol: string)

  predicate StatusOk(o: Status) {
    && LineEnds(o.lead)
    && |o.name| == 4 && IsVersion(o.major) && IsVersion(o.minor) && Spaces(o.gap) && IsVersion(o.code)
    && (o.reason.Some? ==> CR !in o.reason.value && LF !in o.reason.value) && IsEol(o.eol)
  }

  function ReasonText(reason: Option<string>): string {
    if reason.Some? then " " + reason.value else ""
  }

  function StatusText(o: Status): string {
    o.lead + ("H" + o.name) + (o.major + "." + o.minor) + (" " + o.gap) + o.code + (ReasonText(o.reason) + o.eol)
  }

  lemma StartDispatch(p: Parser, x: char)
    ensures p.state == Beginning(PreStartRes) && (x == CR || x == LF) ==> Dispatch(p, x) == Go(p)
    ensures p.state == Beginning(PreStartRes) && x != CR && x != LF ==> Dispatch(p, x) == Redo(p.(state := Beginning(StartRes))).(calls := [MessageBegin])
    ensures p.state == Beginning(StartRes) ==> Dispatch(p, 'H') == Go(Fresh(p, StatusLine(ResH)))
  {
  }

  lemma NameDispatch(p: Parser, x: char)
    requires p.state.StatusLine?
    ensures p.state.status.ResH? ==> Dispatch(p, x) == Go(p.(state := StatusLine(ResHT)))
    ensures p.state.status.ResHT? ==> Dispatch(p, x) == Go(p.(state := StatusLine(ResHTT)))
    ensures p.state.status.ResHTT? ==> Dispatch(p, x) == Go(p.(state := StatusLine(ResHTTP)))
    ensures p.state.status.ResHTTP? ==> Dispatch(p, x) == Go(p.(state := StatusLine(ResFirstHttpMajor)))
    ensures p.state.status.ResHttpMinor? ==> Dispatch(p, ' ') == Go(p.(state := StatusLine(ResFirstStatusCode)))
    ensures p.state.status.ResFirstStatusCode? ==> Dispatch(p, ' ') == Go(p)
  {
  }

  lemma CodeDispatch(p: Parser, x: char)
    requires p.state.StatusLine?
    ensures p.state.status.ResFirstStatusCode? && IsNum(x) ==> Dispatch(p, x) == Go(As(p, StatusLine(ResStatusCode), p.msg.(status := DigitVal(x))))
    ensures p.state.status.ResStatusCode? && IsNum(x) ==>
              var m := p.msg.(status := p.msg.status * 10 + DigitVal(x));
              Dispatch(p, x) == if m.status > 999 then Bad(p.(msg := m), INVALID_STATUS) else Go(p.(msg := m))
  {
  }

  lemma ReasonDispatch(p: Parser, x: char)
    requires p.state.StatusLine?
    ensures p.state.status.ResStatusCode? && x == ' ' ==> Dispatch(p, x) == Go(p.(state := StatusLine(ResStatus)))
    ensures p.state.status.ResStatusCode? && x == CR ==> Dispatch(p, x) == Go(p.(state := StatusLine(ResLineAlmostDone)))
    ensures p.state.status.ResStatusCode? && x == LF ==> Dispatch(p, x) == Go(p.(state := InField(HeaderFieldStart)))
    ensures p.state.status.ResStatus? && x != CR && x != LF ==> Dispatch(p, x) == Go(p).(mark := Some(Reason))
    ensures p.state.status.ResStatus? && x == CR ==>
              Dispatch(p, x) == Go(p.(state := StatusLine(ResLineAlmostDone))).(mark := Some(Reason), flush := Before(Reason))
    ensures p.state.status.ResStatus? && x == LF ==>
              Dispatch(p, x) == Go(p.(state := InField(HeaderFieldStart))).(mark := Some(Reason), flush := Before(Reason))
    ensures p.state.status.ResLineAlmostDone? ==> Dispatch(p, x) == Go(p.(state := InField(HeaderFieldStart)))
  {
  }

  /** The start of a response, up to the slash. */
  lemma RunName(c: Conf, name: string)
    requires c.halt.Running? && c.open.None? && c.p.state == Beginning(PreStartRes) && |name| == 4
    ensures var text := "H" + name;
            At(Run(c, text), Fresh(c.p, StatusLine(ResFirstHttpMajor)), None, Push(c.trace, MessageBegin), c.count + |text|)
  {
    hide Dispatch, Apply, Push, Run;
    assert "H" == ['H'] && name == [name[0]] + [name[1]] + [name[2]] + [name[3]];
    StartDispatch(c.p, 'H');
    var d := StepRedo(c, "H", c.p.(state := Beginning(StartRes)), [MessageBegin]);
    StartDispatch(d.p, 'H');
    var q := Fresh(c.p, StatusLine(ResH));
    StepGo(d, 'H', q);
    var d1 := Run(c, "H");
    NameDispatch(q, name[0]);
    StepGo(d1, name[0], q.(state := StatusLine(ResHT)));
    var d2 := Run(d1, [name[0]]);
    NameDispatch(d2.p, name[1]);
    StepGo(d2, name[1], q.(state := StatusLine(ResHTT)));
    var d3 := Run(d2, [name[1]]);
    NameDispatch(d3.p, name[2]);
    StepGo(d3, name[2], q.(state := StatusLine(ResHTTP)));
    var d4 := Run(d3, [name[2]]);
    NameDispatch(d4.p, name[3]);
    StepGo(d4, name[3], q.(state := StatusLine(ResFirstHttpMajor)));
    RunAppend(d1, [name[0]], [name[1]]);
    RunAppend(d1, [name[0]] + [name[1]], [name[2]]);
    RunAppend(d1, [name[0]] + [name[1]] + [name[2]], [name[3]]);
    RunAppend(c, "H", name);
  }

  /** The space behind the version. */
  lemma RunGap(c: Conf, gap: string)
    requires c.halt.Running? && c.open.None? && c.p.state == StatusLine(ResHttpMinor) && Spaces(gap)
    ensures At(Run(c, " " + gap), c.p.(state := StatusLine(ResFirstStatusCode)), None, c.trace, c.count + 1 + |gap|)
  {
    hide Dispatch, Apply, Push, Run, Idle;
    assert " " == [' '];
    NameDispatch(c.p, ' ');
    var q := c.p.(state := StatusLine(ResFirstStatusCode));
    StepGo(c, ' ', q);
    forall x <- gap
      ensures Dispatch(q, x) == Go(q)
    {
      NameDispatch(q, x);
    }
    IdleBecause(q, gap);
    IdleOrEmpty(Run(c, " "), gap);
    RunAppend(c, " ", gap);
  }

  /** A status code is accepted if and only if it is at most 999, and stored as its value. */
  lemma {:induction false} RunCode(c: Conf, s: string)
    requires c.halt.Running? && c.open.None? && c.p.state == StatusLine(ResFirstStatusCode) && IsDigits(s)
    ensures var d := Run(c, s);
            if DecVal(s) <= 999 then At(d, As(c.p, StatusLine(ResStatusCode), c.p.msg.(status := DecVal(s))), None, c.trace, c.count + |s|)
            else d.halt.Failed? && d.p.errno.INVALID_STATUS?
    decreases |s|
  {
    hide Dispatch, Apply, Push, Run, DecVal, IsNum;
    var n := |s| - 1;
    var x := s[n];
    assert IsNum(x);
    DecValLast(s);
    if n == 0 {
      assert s == [x] && s[..0] == "";
      CodeDispatch(c.p, x);
      StepGo(c, x, As(c.p, StatusLine(ResStatusCode), c.p.msg.(status := DigitVal(x))));
    } else {
      var t := s[..n];
      assert s == t + [x] && IsDigits(t) by { assert forall y <- t :: y in s; }
      RunCode(c, t);
      RunAppend(c, t, [x]);
      var d := Run(c, t);
      if d.halt.Running? {
        CodeDispatch(d.p, x);
        if Dispatch(d.p, x).ctl.Next? {
          StepGo(d, x, Dispatch(d.p, x).p);
        } else {
          RunOne(d, x);
          ApplyKeepsState(d, Dispatch(d.p, x), x);
          ApplyNext(d, x);
        }
      } else {
        RunHalted(d, [x]);
      }
    }
  }

  /** The reason phrase is reported as it stands, even when empty. */
  lemma {:induction false} RunReason(c: Conf, s: string)
    requires c.halt.Running? && c.open.None? && c.p.state == StatusLine(ResStatus) && CR !in s && LF !in s
    ensures At(Run(c, s), c.p, if s == "" then None else Some(Reason),
               if s == "" then c.trace else Push(c.trace, Data(Reason, s)), c.count + |s|)
    decreases |s|
  {
    hide Dispatch, Push, Run;
    if s == "" {
      RunNothing(c);
    } else {
      var n := |s| - 1;
      var x := s[n];
      var t := s[..n];
      assert s == t + [x] && x in s;
      RunReason(c, t);
      var d := Run(c, t);
      ReasonDispatch(d.p, x);
      RunAppend(c, t, [x]);
      RunOne(d, x);
      if t == "" {
        StepMark(d, x, d.p, Reason);
        assert s == [x];
      } else {
        PushTwice(c.trace, Reason, t, [x]);
      }
    }
  }

  lemma RunReasonEnd(c: Conf, trace: seq<Event>, s: string, eol: string)
    requires c.halt.Running? && c.p.state == StatusLine(ResStatus) && IsEol(eol)
    requires if s == "" then c.open.None? && c.trace == trace else c.open == Some(Reason) && c.trace == Push(trace, Data(Reason, s))
    ensures At(Run(c, eol), c.p.(state := InField(HeaderFieldStart)), None, Push(trace, Data(Reason, s)), c.count + |eol|)
  {
    hide Dispatch, Push, Run;
    ReasonDispatch(c.p, eol[0]);
    RunOne(c, eol[0]);
    if eol == CRLF {
      var q := c.p.(state := StatusLine(ResLineAlmostDone));
      var d := Run(c, [CR]);
      assert At(d, q, None, Push(trace, Data(Reason, s)), c.count + 1);
      ReasonDispatch(q, LF);
      StepGo(d, LF, q.(state := InField(HeaderFieldStart)));
      RunAppend(c, [CR], [LF]);
      assert [CR] + [LF] == CRLF;
    }
  }

  /** What follows the code. */
  lemma RunTail(c: Conf, reason: Option<string>, eol: string)
    requires c.halt.Running? && c.open.None? && c.p.state == StatusLine(ResStatusCode) && IsEol(eol)
    requires reason.Some? ==> CR !in reason.value && LF !in reason.value
    ensures var text := ReasonText(reason) + eol;
            At(Run(c, text), c.p.(state := InField(HeaderFieldStart)), None,
               if reason.Some? then Push(c.trace, Data(Reason, reason.value)) else c.trace, c.count + |text|)
  {
    hide Dispatch, Apply, Push, Run;
    if reason.Some? {
      assert " " == [' '];
      ReasonDispatch(c.p, ' ');
      StepGo(c, ' ', c.p.(state := StatusLine(ResStatus)));
      var d := Run(c, " ");
      RunReason(d, reason.value);
      RunReasonEnd(Run(d, reason.value), d.trace, reason.value, eol);
      RunAppend(c, " ", reason.value);
      RunAppend(c, " " + reason.value, eol);
    } else {
      assert "" + eol == eol;
      ReasonDispatch(c.p, eol[0]);
      if eol == CRLF {
        var q := c.p.(state := StatusLine(ResLineAlmostDone));
        StepGo(c, CR, q);
        ReasonDispatch(q, LF);
        StepGo(Run(c, [CR]), LF, q.(state := InField(HeaderFieldStart)));
        RunAppend(c, [CR], [LF]);
        assert [CR] + [LF] == CRLF;
      } else {
        StepGo(c, LF, c.p.(state := InField(HeaderFieldStart)));
      }
    }
  }

  /** The parser behind the status line. */
  function BehindStatus(p: Parser, o: Status): Parser
    requires StatusOk(o)
  {
    p.(state := InField(HeaderFieldStart), contentLength := -1,
       msg := Cleared(p.msg).(major := DecVal(o.major), minor := DecVal(o.minor), status := DecVal(o.code)))
  }

  function StatusEvents(o: Status): seq<Event> {
    [MessageBegin] + if o.reason.Some? then [Data(Reason, o.reason.value)] else []
  }

  lemma RunVersionAndCode(c: Conf, o: Status)
    requires c.halt.Running? && c.open.None? && c.p.state == StatusLine(ResFirstHttpMajor) && StatusOk(o)
    ensures var text := (o.major + "." + o.minor) + (" " + o.gap) + o.code;
            At(Run(c, text), As(c.p, StatusLine(ResStatusCode), c.p.msg.(major := DecVal(o.major), minor := DecVal(o.minor), status := DecVal(o.code))),
               None, c.trace, c.count + |text|)
  {
    hide Dispatch, Apply, Push, Run, IsDigits, DecVal, Spaces, IsEol;
    var version := o.major + "." + o.minor;
    RunVersion(c, false, o.major, o.minor);
    var d := Run(c, version);
    RunGap(d, o.gap);
    RunCode(Run(d, " " + o.gap), o.code);
    RunAppend(c, version, " " + o.gap);
    RunAppend(c, version + (" " + o.gap), o.code);
  }

  /** A status line: the version and the code are stored, the reason is reported as it stands, and the headers start. */
  lemma RunStatusLine(c: Conf, o: Status)
    requires c.halt.Running? && c.open.None? && c.p.state == Beginning(PreStartRes) && StatusOk(o)
    ensures At(Run(c, StatusText(o)), BehindStatus(c.p, o), None, PushAll(c.trace, StatusEvents(o)), c.count + |StatusText(o)|)
  {
    hide Dispatch, Apply, Push, PushAll, Run, Idle, IsVersion, DecVal, Spaces, IsEol;
    forall x <- o.lead
      ensures Dispatch(c.p, x) == Go(c.p)
    {
      StartDispatch(c.p, x);
    }
    IdleBecause(c.p, o.lead);
    IdleOrEmpty(c, o.lead);
    var c1 := Run(c, o.lead);
    RunName(c1, o.name);
    var c2 := Run(c1, "H" + o.name);
    var text := (o.major + "." + o.minor) + (" " + o.gap) + o.code;
    RunVersionAndCode(c2, o);
    RunTail(Run(c2, text), o.reason, o.eol);
    RunAppend(c, o.lead, "H" + o.name);
    RunAppend(c, o.lead + ("H" + o.name), text);
    RunAppend(c, o.lead + ("H" + o.name) + text, ReasonText(o.reason) + o.eol);
    assert StatusText(o) == o.lead + ("H" + o.name) + text + (ReasonText(o.reason) + o.eol);
    PushOne(c.trace, MessageBegin);
    if o.reason.Some? {
      HeaderBlocks.PushAllAppend(c.trace, [MessageBegin], [Data(Reason, o.reason.value)]);
      PushOne(Push(c.trace, MessageBegin), Data(Reason, o.reason.value));
    } else {
      assert StatusEvents(o) == [MessageBegin];
    }
  }

  // The other direction: what is taken for a status line is one.

  /** What has been read behind the slash. */
  datatype StatusReading = StatusReading(major: string, minor: string, gap: string, code: string, reason: string)

  function VersionOf(w: StatusReading): string {
    w.major + "." + w.minor
  }

  function Coded(w: StatusReading): string {
    VersionOf(w) + (" " + w.gap) + w.code
  }

  /** The bytes `v` behind the slash have led to the state of `p`. */
  predicate Reads(p: Parser, v: string, w: StatusReading) {
    && p.state.StatusLine? && Spaces(w.gap)
    && match p.state.status
       case ResFirstHttpMajor => v == ""
       case ResHttpMajor => ReadsNumber(p.msg.major, w.major) && v == w.major
       case ResFirstHttpMinor => IsVersion(w.major) && v == w.major + "."
       case ResHttpMinor => IsVersion(w.major) && ReadsNumber(p.msg.minor, w.minor) && v == VersionOf(w)
       case ResFirstStatusCode => IsVersion(w.major) && IsVersion(w.minor) && v == VersionOf(w) + (" " + w.gap)
       case ResStatusCode => IsVersion(w.major) && IsVersion(w.minor) && ReadsNumber(p.msg.status, w.code) && v == Coded(w)
       case ResStatus => IsVersion(w.major) && IsVersion(w.minor) && IsVersion(w.code) && v == Coded(w) + (" " + w.reason)
       case _ => false
  }

  lemma VersionStep(p: Parser, q: Parser, v: string, w: StatusReading, x: char) returns (u: StatusReading)
    requires Reads(p, v, w) && Dispatch(p, x) == Go(q) && x != CR && x != LF
    requires p.state.status.ResFirstHttpMajor? || p.state.status.ResHttpMajor? || p.state.status.ResFirstHttpMinor? || p.state.status.ResHttpMinor?
    ensures Reads(q, v + [x], u)
  {
    hide IsVersion, ReadsNumber, IsNum, DecVal;
    match p.state.status
    case ResFirstHttpMajor =>
      NumberStarts(x);
      u := w.(major := [x]);
    case ResHttpMajor =>
      if x == '.' {
        u := w;
        NumberIsVersion(p.msg.major, w.major);
      } else {
        NumberGoesOn(p.msg.major, w.major, x);
        u := w.(major := w.major + [x]);
      }
    case ResFirstHttpMinor =>
      NumberStarts(x);
      u := w.(minor := [x]);
    case ResHttpMinor =>
      if x == ' ' {
        u := w.(gap := "");
        NumberIsVersion(p.msg.minor, w.minor);
      } else {
        NumberGoesOn(p.msg.minor, w.minor, x);
        u := w.(minor := w.minor + [x]);
      }
  }

  lemma CodeStep(p: Parser, q: Parser, v: string, w: StatusReading, x: char) returns (u: StatusReading)
    requires Reads(p, v, w) && Dispatch(p, x) == Go(q) && x != CR && x != LF
    requires p.state.status.ResFirstStatusCode? || p.state.status.ResStatusCode?
    ensures Reads(q, v + [x], u)
  {
    hide IsVersion, ReadsNumber, IsNum, DecVal, VersionOf;
    match p.state.status
    case ResFirstStatusCode =>
      if IsNum(x) {
        NumberStarts(x);
        u := w.(code := [x]);
        SameVersion(w, u);
      } else {
        u := w.(gap := w.gap + [x]);
        SameVersion(w, u);
      }
    case ResStatusCode =>
      if IsNum(x) {
        NumberGoesOn(p.msg.status, w.code, x);
        u := w.(code := w.code + [x]);
        SameVersion(w, u);
      } else {
        u := w.(reason := "");
        SameVersion(w, u);
        NumberIsVersion(p.msg.status, w.code);
      }
  }

  lemma SameVersion(w: StatusReading, u: StatusReading)
    requires u.major == w.major && u.minor == w.minor
    ensures VersionOf(u) == VersionOf(w)
  {
  }

  lemma GoesOrFails(p: Parser, v: string, w: StatusReading, x: char)
    requires Reads(p, v, w) && x != CR && x != LF
    ensures p.state.status.ResStatus? ==> Dispatch(p, x) == Go(p).(mark := Some(Reason))
    ensures !p.state.status.ResStatus? ==> Dispatch(p, x) == Go(Dispatch(p, x).p) || Dispatch(p, x).ctl.Fail?
  {
    hide IsVersion, ReadsNumber, IsNum, DecVal, Spaces, VersionOf, Coded;
  }

  lemma StepsOn(c: Conf, x: char)
    requires c.halt.Running?
    ensures Dispatch(c.p, x).ctl.Next? ==> Run(c, [x]).p == Dispatch(c.p, x).p && Run(c, [x]).halt.Running?
    ensures Dispatch(c.p, x).ctl.Fail? ==> Run(c, [x]).halt.Failed?
  {
    hide Dispatch, Apply;
    if Dispatch(c.p, x).ctl.Next? || Dispatch(c.p, x).ctl.Fail? {
      RunOne(c, x);
      ApplyNext(c, x);
      ApplyKeepsState(c, Dispatch(c.p, x), x);
    }
  }

  lemma ReadsOn(p: Parser, q: Parser, v: string, w: StatusReading, x: char) returns (u: StatusReading)
    requires Reads(p, v, w) && Dispatch(p, x).ctl.Next? && Dispatch(p, x).p == q && x != CR && x != LF
    ensures Reads(q, v + [x], u)
  {
    hide Dispatch, IsVersion, ReadsNumber, Spaces, VersionOf;
    GoesOrFails(p, v, w, x);
    var r := p.state.status;
    if r.ResStatus? {
      u := w.(reason := w.reason + [x]);
      SameVersion(w, u);
    } else if r.ResFirstStatusCode? || r.ResStatusCode? {
      u := CodeStep(p, q, v, w, x);
    } else {
      u := VersionStep(p, q, v, w, x);
    }
  }

  lemma {:induction false} ReadsStatus(c: Conf, v: string) returns (w: StatusReading)
    requires c.halt.Running? && c.p.state == StatusLine(ResFirstHttpMajor) && CR !in v && LF !in v
    requires !Run(c, v).halt.Failed?
    ensures Run(c, v).halt.Running? && Reads(Run(c, v).p, v, w)
    decreases |v|
  {
    hide Dispatch, Apply, Push, Run, Reads;
    if v == "" {
      RunNothing(c);
      w := StatusReading("", "", "", "", "");
      ReadsNothing(c.p, w);
    } else {
      var n := |v| - 1;
      var t, x := v[..n], v[n];
      assert v == t + [x] && x in v;
      RunAppend(c, t, [x]);
      var d := Run(c, t);
      if d.halt.Failed? { RunHalted(d, [x]); }
      w := ReadsStatus(c, t);
      GoesOrNot(d.p, t, w, x);
      StepsOn(d, x);
      w := ReadsOn(d.p, Dispatch(d.p, x).p, t, w, x);
    }
  }

  lemma GoesOrNot(p: Parser, v: string, w: StatusReading, x: char)
    requires Reads(p, v, w) && x != CR && x != LF
    ensures Dispatch(p, x).ctl.Next? || Dispatch(p, x).ctl.Fail?
  {
    hide Dispatch, Reads;
    IsReading(p, v, w);
    GoesOrFails(p, v, w, x);
  }

  lemma IsReading(p: Parser, v: string, w: StatusReading)
    requires Reads(p, v, w)
    ensures p.state.StatusLine?
  {
  }

  lemma ReadsNothing(p: Parser, w: StatusReading)
    requires p.state == StatusLine(ResFirstHttpMajor) && w.gap == ""
    ensures Reads(p, "", w)
  {
  }

  /** Two numbers with a dot between them, spaces, a code, and no reason or one behind a space. */
  ghost predicate IsStatusText(v: string) {
    exists major, minor, gap, code, reason ::
      IsVersion(major) && IsVersion(minor) && Spaces(gap) && IsVersion(code) && v == (major + "." + minor) + (" " + gap) + code + ReasonText(reason)
  }

  /** The states behind a code and behind a reason, which let the line end. */
  predicate AtStatusEnd(c: Conf) {
    c.halt.Running? && (c.p.state == StatusLine(ResStatusCode) || c.p.state == StatusLine(ResStatus))
  }

  /** What follows the slash is taken for the rest of a status line if and only if it is one. */
  lemma StatusExact(c: Conf, v: string)
    requires c.halt.Running? && c.open.None? && c.p.state == StatusLine(ResFirstHttpMajor) && CR !in v && LF !in v
    ensures AtStatusEnd(Run(c, v)) <==> IsStatusText(v)
  {
    hide Dispatch, Apply, Push, Run, IsVersion, Spaces, Reads;
    if AtStatusEnd(Run(c, v)) {
      var w := ReadsStatus(c, v);
      ReadsWhole(Run(c, v).p, v, w);
    }
    if major, minor, gap, code, reason :|
        IsVersion(major) && IsVersion(minor) && Spaces(gap) && IsVersion(code) && v == (major + "." + minor) + (" " + gap) + code + ReasonText(reason) {
      WritesWhole(c, major, minor, gap, code, reason, v);
    }
  }

  lemma ReadsWhole(p: Parser, v: string, w: StatusReading)
    requires Reads(p, v, w) && (p.state == StatusLine(ResStatusCode) || p.state == StatusLine(ResStatus))
    ensures IsStatusText(v)
  {
    hide IsVersion, Spaces;
    if p.state.status.ResStatusCode? { NumberIsVersion(p.msg.status, w.code); }
    var reason := if p.state.status.ResStatus? then Some(w.reason) else None;
    assert v == (w.major + "." + w.minor) + (" " + w.gap) + w.code + ReasonText(reason);
  }

  lemma WritesWhole(c: Conf, major: string, minor: string, gap: string, code: string, reason: Option<string>, v: string)
    requires c.halt.Running? && c.open.None? && c.p.state == StatusLine(ResFirstHttpMajor) && CR !in v && LF !in v
    requires IsVersion(major) && IsVersion(minor) && Spaces(gap) && IsVersion(code) && v == (major + "." + minor) + (" " + gap) + code + ReasonText(reason)
    ensures AtStatusEnd(Run(c, v))
  {
    hide Dispatch, Apply, Push, Run, IsDigits, DecVal, Spaces;
    var o := Status("", "TTP/", major, minor, gap, code, None, CRLF);
    RunVersionAndCode(c, o);
    var text := (major + "." + minor) + (" " + gap) + code;
    var d := Run(c, text);
    RunAppend(c, text, ReasonText(reason));
    if reason.Some? {
      assert " " == [' '] && forall x <- reason.value :: x in v;
      ReasonDispatch(d.p, ' ');
      StepGo(d, ' ', d.p.(state := StatusLine(ResStatus)));
      RunAppend(d, " ", reason.value);
      RunReason(Run(d, " "), reason.value);
    } else {
      RunNothing(d);
    }
  }
}
