/** What the server prints as a response header, the parser reads back. */
module ResponseRoundTrip {
  import opened Chars
  import opened Options
  import opened ParserTypes
  import opened Transition
  import opened ParserRun
  import opened Execute
  import opened Numbers
  import opened Walk
  import opened HeaderLines
  import opened HeaderBlocks
  import opened Framing
  import opened RequestLines
  import opened StatusLines
  import ChunkedBody

  /** `%d` of a number that is not negative. */
  function Digits(n: nat): string {
    (if n < 10 then "" else Digits(n / 10)) + [(n % 10 + '0' as int) as char]
  }

  lemma {:induction false} DigitsValue(n: nat)
    ensures var s := Digits(n);
            && s != "" && (forall x <- s :: IsNum(x)) && (forall x <- s :: IsNum(x) || x == ' ')
            && DecVal(s) == n && IsNum(s[0])
  {
    hide IsNum, DecVal;
    var x := (n % 10 + '0' as int) as char;
    DigitIs(n);
    if n < 10 {
      NoDigits();
      assert Digits(n) == "" + [x];
      DecValSnoc("", x);
    } else {
      DigitsValue(n / 10);
      var t := Digits(n / 10);
      assert Digits(n) == t + [x];
      assert (t + [x])[0] == t[0];
      DecValSnoc(t, x);
    }
  }

  lemma DigitIs(n: nat)
    ensures var x := (n % 10 + '0' as int) as char; IsNum(x) && x != ' ' && DigitVal(x) == n % 10
  {
  }

  lemma NoDigits()
    ensures DecVal("") == 0
  {
  }

  lemma DecValSnoc(t: string, x: char)
    requires (forall y <- t :: IsNum(y)) && IsNum(x) && x != ' '
    ensures (forall y <- t + [x] :: IsNum(y)) && DecVal(t + [x]) == DecVal(t) * 10 + DigitVal(x)
  {
    assert (t + [x])[..|t + [x]| - 1] == t && (t + [x])[|t + [x]| - 1] == x;
  }

  function StatusLineText(code: nat, reason: string): string {
    "HTTP/1.1 " + Digits(code) + " " + reason
  }

  function LengthText(length: nat): string {
    "Content-Length: " + Digits(length)
  }

  function ConnectionText(keepAlive: bool): string {
    "Connection: " + (if keepAlive then "Keep-Alive" else "Close")
  }

  /** The text of a response header, line by line. */
  function HeaderText(code: nat, reason: string, length: nat, keepAlive: bool): string {
    StatusLineText(code, reason) + CRLF + LengthText(length) + CRLF + ConnectionText(keepAlive) + CRLF + CRLF
  }

  // The same text, as a message.

  function PrintedStatus(code: nat, reason: string): Status {
    Status("", "TTP/", "1", "1", "", Digits(code), Some(reason), CRLF)
  }

  function PrintedLines(length: nat, keepAlive: bool): seq<Line> {
    [Line("Content-Length", " ", Digits(length), CRLF, []),
     Line("Connection", " ", if keepAlive then "Keep-Alive" else "Close", CRLF, [])]
  }

  lemma StatusIsPrinted(code: nat, reason: string)
    requires code <= 999 && CR !in reason && LF !in reason
    ensures var o := PrintedStatus(code, reason);
            StatusOk(o) && StatusText(o) == StatusLineText(code, reason) + CRLF && DecVal(o.major) == 1 && DecVal(o.minor) == 1 && DecVal(o.code) == code
  {
    hide Digits, DecVal, IsNum;
    DigitsValue(code);
    OneIsOne();
    assert "" + ("H" + "TTP/") + ("1" + "." + "1") + (" " + "") == "HTTP/1.1 ";
  }

  lemma OneIsOne()
    ensures IsDigits("1") && DecVal("1") == 1
  {
    assert "1"[..0] == "";
  }

  lemma {:induction false} NamesOfLines()
    ensures IsName("Content-Length") && LowerAll("Content-Length") == CONTENT_LENGTH
    ensures IsName("Connection") && LowerAll("Connection") == "connection"
    ensures IsValue("Close") && IsValue("Keep-Alive")
    ensures "connection" != CONTENT_LENGTH && "connection" != TRANSFER_ENCODING && "connection" != UPGRADE
  {
    hide Passes, Quoting;
    assert LowerAll("Content-Length") == "content-length";
    assert LowerAll("Connection") == "connection";
    assert |"connection"| == 10 && |CONTENT_LENGTH| == 14 && |TRANSFER_ENCODING| == 17 && |UPGRADE| == 7;
    PlainIsValue("Close");
    PlainIsValue("Keep-Alive");
  }

  lemma PrintedLinesOk(length: nat, keepAlive: bool)
    requires length <= MAX_CONTENT_LENGTH
    ensures var ls := PrintedLines(length, keepAlive);
            && LineOk(ls[0]) && LineOk(ls[1]) && Names(ls[0], CONTENT_LENGTH) && DecVal(ls[0].value) == length
            && !Names(ls[1], CONTENT_LENGTH) && !Names(ls[1], TRANSFER_ENCODING) && !Names(ls[1], UPGRADE)
  {
    hide Digits, DecVal, IsNum, LowerAll, IsName, IsValue, CodingState;
    DigitsValue(length);
    NamesOfLines();
    LiteralsDiffer();
  }

  lemma OneLine(l: Line)
    requires l.folds == []
    ensures LinesText([l]) == LineText(l) && LinesEvents([l]) == [Data(Field, l.field), Data(Value, l.value)]
  {
    hide LineText;
    var ls := [l];
    assert ls[..|ls| - 1] == [];
    assert LinesText([]) == "" && "" + LineText(l) == LineText(l);
    assert LinesEvents([]) == [] && Unfolded(l.value, l.folds) == l.value;
    assert [] + [Data(Field, l.field), Data(Value, l.value)] == [Data(Field, l.field), Data(Value, l.value)];
  }

  lemma TwoLines(a: Line, b: Line)
    requires LineOk(a) && LineOk(b) && a.folds == [] && b.folds == []
    ensures var ls := [a, b];
            && LinesOk(ls) && LinesText(ls) == LineText(a) + LineText(b)
            && LengthOf(ls, -1) == LengthOf([b], LengthOf([a], -1))
            && (AnyChunked(ls) <==> AnyChunked([a]) || AnyChunked([b])) && (AnyUpgrade(ls) <==> AnyUpgrade([a]) || AnyUpgrade([b]))
            && LinesEvents(ls) == [Data(Field, a.field), Data(Value, a.value), Data(Field, b.field), Data(Value, b.value)]
  {
    hide LineOk, LineText, AnyChunked, AnyUpgrade, LengthOf;
    var ls := [a, b];
    assert ls[..1] == [a];
    LinesSnoc(ls);
    OneLine(a);
    assert Unfolded(b.value, b.folds) == b.value;
  }

  lemma LinesArePrinted(length: nat, keepAlive: bool)
    requires length <= MAX_CONTENT_LENGTH
    ensures var ls := PrintedLines(length, keepAlive);
            && LinesOk(ls) && LinesText(ls) == LengthText(length) + CRLF + (ConnectionText(keepAlive) + CRLF)
            && LengthOf(ls, -1) == length && !AnyChunked(ls) && !AnyUpgrade(ls)
            && LinesEvents(ls) == [Data(Field, "Content-Length"), Data(Value, Digits(length)),
                                   Data(Field, "Connection"), Data(Value, if keepAlive then "Keep-Alive" else "Close")]
  {
    hide Digits, DecVal, LineOk, LowerAll, Names, LengthOf, AnyChunked, AnyUpgrade, LinesText, LinesEvents;
    var ls := PrintedLines(length, keepAlive);
    PrintedLinesOk(length, keepAlive);
    TwoLines(ls[0], ls[1]);
    One(ls[0]);
    One(ls[1]);
    LengthIsNoOther(ls[0]);
    assert LineText(ls[0]) == LengthText(length) + CRLF by {
      assert "Content-Length" + ":" + " " == "Content-Length: ";
    }
    assert LineText(ls[1]) == ConnectionText(keepAlive) + CRLF by {
      assert "Connection" + ":" + " " == "Connection: ";
    }
  }

  lemma LengthIsNoOther(l: Line)
    requires Names(l, CONTENT_LENGTH)
    ensures !Names(l, TRANSFER_ENCODING) && !Names(l, UPGRADE)
  {
    LiteralsDiffer();
  }

  lemma TextInParts(code: nat, reason: string, length: nat, keepAlive: bool)
    requires code <= 999 && CR !in reason && LF !in reason && length <= MAX_CONTENT_LENGTH
    ensures HeaderText(code, reason, length, keepAlive) ==
            StatusText(PrintedStatus(code, reason)) + (LinesText(PrintedLines(length, keepAlive)) + CRLF)
  {
    hide StatusText, LinesText, StatusLineText, LengthText, ConnectionText, StatusOk, LinesOk, LengthOf, LinesEvents,
      PrintedLines, PrintedStatus;
    StatusIsPrinted(code, reason);
    LinesArePrinted(length, keepAlive);
  }

  /** The status line that is printed, as far as the parser is concerned. */
  lemma RunPrintedStatus(c: Conf, code: nat, reason: string)
    requires c.halt.Running? && c.open.None? && c.p.state == Beginning(PreStartRes)
    requires code <= 999 && CR !in reason && LF !in reason
    ensures var m := Cleared(c.p.msg).(major := 1, minor := 1, status := code);
            At(Run(c, StatusLineText(code, reason) + CRLF),
               c.p.(state := InField(HeaderFieldStart), contentLength := -1, msg := m), None,
               PushAll(c.trace, [MessageBegin, Data(Reason, reason)]), c.count + |StatusLineText(code, reason)| + 2)
  {
    hide Dispatch, Apply, Push, PushAll, Run, Digits, DecVal, StatusText, StatusLineText, StatusOk;
    StatusIsPrinted(code, reason);
    RunStatusLine(c, PrintedStatus(code, reason));
    assert StatusEvents(PrintedStatus(code, reason)) == [MessageBegin, Data(Reason, reason)];
  }

  /** Parsing what `generate_header` prints succeeds, with the code, the version and the length that were
      printed, and ends exactly where the body starts. */
  lemma HeaderRoundTrip(c: Conf, code: nat, reason: string, length: nat, keepAlive: bool)
    requires c.halt.Running? && c.open.None? && c.p.state == Beginning(PreStartRes)
    requires c.p.msg.kind.Response? && c.p.msg.verb != CONNECT && !c.p.msg.bodiless
    requires code <= 999 && CR !in reason && LF !in reason && length <= MAX_CONTENT_LENGTH
    ensures var text := HeaderText(code, reason, length, keepAlive);
            var d := Run(c, text);
            && d.halt.Running? && d.open.None? && d.count == c.count + |text|
            && d.p.msg.status == code && d.p.msg.major == 1 && d.p.msg.minor == 1 && d.p.contentLength == length && !d.p.msg.upgrade
            && d.p.msg.kind == Response && d.p.msg.verb == c.p.msg.verb && !d.p.msg.bodiless && d.p.errno == c.p.errno
            && d.p.state == (if length == 0 then Beginning(PreStartRes) else InBody(BodyIdentity))
            && d.trace == PushAll(c.trace,
                 [MessageBegin, Data(Reason, reason), Data(Field, "Content-Length"), Data(Value, Digits(length)),
                  Data(Field, "Connection"), Data(Value, if keepAlive then "Keep-Alive" else "Close"), HeadersComplete]
                 + (if length == 0 then [MessageComplete] else []))
  {
    hide Dispatch, Apply, Push, PushAll, Run, Digits, DecVal, StatusText, StatusLineText, HeaderText, LinesText, LinesOk,
      LengthOf, LinesEvents, PrintedLines, PrintedStatus, AnyChunked, AnyUpgrade, StatusOk;
    var ls := PrintedLines(length, keepAlive);
    RunPrintedStatus(c, code, reason);
    LinesArePrinted(length, keepAlive);
    StatusIsPrinted(code, reason);
    TextInParts(code, reason, length, keepAlive);
    var text := StatusLineText(code, reason) + CRLF;
    var d := Run(c, text);
    HeadFrames(d, ls, CRLF);
    RunAppend(c, text, LinesText(ls) + CRLF);
    var head := [MessageBegin, Data(Reason, reason)];
    PushAllAppend(c.trace, head, LinesEvents(ls) + [HeadersComplete]);
    var all := [MessageBegin, Data(Reason, reason), Data(Field, "Content-Length"), Data(Value, Digits(length)),
                Data(Field, "Connection"), Data(Value, if keepAlive then "Keep-Alive" else "Close"), HeadersComplete];
    assert head + (LinesEvents(ls) + [HeadersComplete]) == all;
    PushAllAppend(c.trace, all, [MessageComplete]);
    PushOne(PushAll(c.trace, all), MessageComplete);
    assert all + [] == all;
  }

  /** A response as the server sends it: a header with the length of the body, then the body. */
  datatype Reply = Reply(code: nat, reason: string, body: string, keepAlive: bool)

  predicate ReplyOk(r: Reply) {
    100 <= r.code <= 999 && CR !in r.reason && LF !in r.reason && |r.body| <= MAX_CONTENT_LENGTH
  }

  function ReplyText(r: Reply): string {
    HeaderText(r.code, r.reason, |r.body|, r.keepAlive) + r.body
  }

  function ReplyEvents(r: Reply): seq<Event> {
    [MessageBegin, Data(Reason, r.reason), Data(Field, "Content-Length"), Data(Value, Digits(|r.body|)),
     Data(Field, "Connection"), Data(Value, if r.keepAlive then "Keep-Alive" else "Close"), HeadersComplete]
    + (if r.body == "" then [MessageComplete] else [Data(Body, r.body), MessageComplete])
  }

  ghost predicate Ready(c: Conf) {
    && c.halt.Running? && c.open.None? && c.p.state == Beginning(PreStartRes)
    && c.p.msg.kind.Response? && c.p.msg.verb != CONNECT && !c.p.msg.bodiless
  }

  lemma ReplyRoundTrip(c: Conf, r: Reply)
    requires Ready(c) && ReplyOk(r)
    ensures var d := Run(c, ReplyText(r));
            Ready(d) && d.trace == PushAll(c.trace, ReplyEvents(r)) && d.count == c.count + |ReplyText(r)|
            && d.p.msg.status == r.code
  {
    hide Dispatch, Apply, Push, PushAll, Run, Digits, HeaderText;
    HeaderRoundTrip(c, r.code, r.reason, |r.body|, r.keepAlive);
    var text := HeaderText(r.code, r.reason, |r.body|, r.keepAlive);
    var d := Run(c, text);
    RunAppend(c, text, r.body);
    if r.body == "" {
      RunNothing(d);
    } else {
      ChunkedBody.IdentityRoundTrip(d, r.body);
      var head := [MessageBegin, Data(Reason, r.reason), Data(Field, "Content-Length"), Data(Value, Digits(|r.body|)),
                   Data(Field, "Connection"), Data(Value, if r.keepAlive then "Keep-Alive" else "Close"), HeadersComplete];
      assert head + [] == head;
      assert head + [Data(Body, r.body), MessageComplete] == (head + [Data(Body, r.body)]) + [MessageComplete];
      PushAllAppend(c.trace, head, [Data(Body, r.body)]);
      PushAllAppend(c.trace, head + [Data(Body, r.body)], [MessageComplete]);
      PushOne(d.trace, Data(Body, r.body));
      PushOne(Push(d.trace, Data(Body, r.body)), MessageComplete);
    }
  }

  function StreamText(rs: seq<Reply>): string {
    if rs == [] then "" else ReplyText(rs[0]) + StreamText(rs[1..])
  }

  function StreamEvents(rs: seq<Reply>): seq<Event> {
    if rs == [] then [] else ReplyEvents(rs[0]) + StreamEvents(rs[1..])
  }

  /** Any number of responses on one connection are read back one by one, each with its own body. */
  lemma {:induction false} StreamRoundTrip(c: Conf, rs: seq<Reply>)
    requires Ready(c) && forall r <- rs :: ReplyOk(r)
    ensures var d := Run(c, StreamText(rs));
            Ready(d) && d.trace == PushAll(c.trace, StreamEvents(rs)) && d.count == c.count + |StreamText(rs)|
    decreases |rs|
  {
    hide Dispatch, Apply, Push, PushAll, Run, ReplyEvents, ReplyText, Ready, ReplyOk;
    if rs == [] {
      RunNothing(c);
      PushNone(c.trace);
    } else {
      ReplyRoundTrip(c, rs[0]);
      StreamRoundTrip(Run(c, ReplyText(rs[0])), rs[1..]);
      RunAppend(c, ReplyText(rs[0]), StreamText(rs[1..]));
      PushAllAppend(c.trace, ReplyEvents(rs[0]), StreamEvents(rs[1..]));
    }
  }
}
