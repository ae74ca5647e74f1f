/** The byte-at-a-time meaning of the parser: a fold of `Dispatch` over the stream. */
module ParserRun {
  import opened Options
  import opened ParserTypes
  import opened Transition

  /** A callback trace in which adjacent data callbacks of one kind are one callback. */
  function Push(t: seq<Event>, e: Event): seq<Event> {
    if e.Data? && t != [] && t[|t| - 1].Data? && t[|t| - 1].kind == e.kind
    then t[..|t| - 1] + [Data(e.kind, t[|t| - 1].bytes + e.bytes)]
    else t + [e]
  }

  function PushAll(t: seq<Event>, es: seq<Event>): seq<Event>
    decreases |es|
  {
    if es == [] then t else PushAll(Push(t, es[0]), es[1..])
  }

  /** The merged form of a raw sequence of callbacks. */
  function Merge(es: seq<Event>): seq<Event> {
    if es == [] then [] else Push(Merge(es[..|es| - 1]), es[|es| - 1])
  }

  datatype Halt = Running | Stopped | Failed

  /** `nread` counts header bytes; `open` is the kind of data under a mark, if any; `trace` is merged and up to
      date with every byte, those under the mark included; `count` is the number of bytes left behind. While a
      mark is set, `made` is what has been called back and `since` the count at which the mark was set. */
  datatype Conf = Conf(
    p: Parser, nread: nat, open: Option<DataKind>, trace: seq<Event>, count: nat, halt: Halt, made: seq<Event>, since: nat)

  /** The callbacks that a run amounts to: a failing one never calls back the data under a mark. */
  function CalledBack(c: Conf): seq<Event> {
    if c.halt.Failed? && c.open.Some? then c.made else c.trace
  }

  function Unopened(c: Conf): Conf {
    c.(open := None, made := [], since := 0)
  }

  /** The count of header bytes matters in the header states of a parser without error only. */
  function Counted(p: Parser, n: nat): nat {
    if ParsingHeader(p.state) && p.errno.OK? then n else 0
  }

  function Opened(c: Conf, mark: Option<DataKind>): Conf {
    if mark.Some? && c.open.None?
    then c.(open := mark, made := c.trace, since := c.count, trace := Push(c.trace, Data(mark.value, "")))
    else c
  }

  function Flushed(c: Conf, flush: Flush, b: char): Conf {
    match flush
    case Keep => c
    case Before(k) => if c.open == Some(k) then Unopened(c) else c
    case Through(k) => if c.open == Some(k) then Unopened(c).(trace := Push(c.trace, Data(k, [b]))) else c
  }

  function Called(c: Conf, calls: seq<Event>): Conf {
    c.(trace := PushAll(c.trace, calls))
  }

  /** The current byte is left behind: it belongs to the data being reported, and it is counted. */
  function Advanced(c: Conf, b: char): Conf {
    c.(trace := if c.open.Some? then Push(c.trace, Data(c.open.value, [b])) else c.trace,
       nread := Counted(c.p, c.nread + 1),
       count := c.count + 1)
  }

  function Acted(c: Conf, o: Out, b: char): Conf {
    var d := c.(p := o.p, nread := if o.reset then 0 else c.nread);
    Called(Flushed(Opened(d, o.mark), o.flush, b), o.calls)
  }

  function Apply(c: Conf, o: Out, b: char): Conf {
    var d := Acted(c, o, b);
    match o.ctl
    case Next => Advanced(d, b)
    case Again => d.(nread := Counted(d.p, d.nread))
    case Stop => d.(nread := Counted(d.p, d.nread), count := d.count + 1, halt := Stopped)
    case Fail => d.(nread := Counted(d.p, d.nread), halt := Failed)
  }

  function Rank(s: State): nat {
    match s
    case Beginning(b) => if b.PreStartReqOrRes? || b.PreStartRes? || b.PreStartReq? then 6 else if b.StartReqOrRes? then 5 else 1
    case RequestLine(_) => 3
    case InUrl(u) => if u.ReqHostStart? || u.ReqHostDone? then 1 else 3
    case InField(_) => 3
    case InValue(v) => if v.HeaderValueLws? then 4 else if v.HeaderValue? then 2 else 1
    case AtEnd(e) => if e.HeadersAlmostDone? then 2 else 1
    case InBody(y) => if y.BodyIdentity? then 2 else 1
    case _ => 1
  }

  predicate LowersRank(o: Out, s: State) {
    o.ctl == Again ==> Rank(o.p.state) < Rank(s)
  }

  lemma LowerStart(p: Parser, b: char)
    requires p.state.Beginning?
    ensures LowersRank(DispatchStart(p, b), p.state)
  {
  }

  lemma LowerStatus(p: Parser, b: char)
    requires p.state.StatusLine?
    ensures LowersRank(DispatchStatus(p, b), p.state)
  {
  }

  lemma LowerRequest(p: Parser, b: char)
    requires p.state.RequestLine?
    ensures LowersRank(DispatchRequest(p, b), p.state)
  {
  }

  lemma LowerUrl(p: Parser, b: char)
    requires p.state.InUrl?
    ensures LowersRank(DispatchUrl(p, b), p.state)
  {
  }

  lemma LowerField(p: Parser, b: char)
    requires p.state.InField?
    ensures LowersRank(DispatchField(p, b), p.state)
  {
  }

  lemma LowerValue(p: Parser, b: char)
    requires p.state.InValue?
    ensures LowersRank(DispatchHeaderValue(p, b), p.state)
  {
  }

  lemma LowerEnd(p: Parser, b: char)
    requires p.state.AtEnd?
    ensures LowersRank(DispatchEnd(p, b), p.state)
  {
  }

  lemma LowerChunk(p: Parser, b: char)
    requires p.state.InChunkSize?
    ensures LowersRank(DispatchChunk(p, b), p.state)
  {
  }

  lemma LowerBody(p: Parser, b: char)
    requires p.state.InBody?
    ensures LowersRank(DispatchBody(p, b), p.state)
  {
  }

  /** The re-execution of a byte ends: each one lowers the rank of the state. */
  lemma AgainLowersRank(p: Parser, b: char)
    ensures LowersRank(Dispatch(p, b), p.state)
  {
    hide DispatchStart, DispatchStatus, DispatchRequest, DispatchUrl, DispatchField, DispatchHeaderValue, DispatchEnd,
      DispatchChunk, DispatchBody, Rank;
    match p.state
    case Beginning(_) => LowerStart(p, b);
    case StatusLine(_) => LowerStatus(p, b);
    case RequestLine(_) => LowerRequest(p, b);
    case InUrl(_) => LowerUrl(p, b);
    case InField(_) => LowerField(p, b);
    case InValue(_) => LowerValue(p, b);
    case AtEnd(_) => LowerEnd(p, b);
    case InChunkSize(_) => LowerChunk(p, b);
    case InBody(_) => LowerBody(p, b);
    case Unhandled =>
  }

  function Run(c: Conf, bs: string): Conf
    decreases |bs|, Rank(c.p.state)
  {
    if bs == [] || c.halt != Running then c
    else
      var o := Dispatch(c.p, bs[0]);
      var d := Apply(c, o, bs[0]);
      AgainLowersRank(c.p, bs[0]);
      if o.ctl == Again then Run(d, bs) else Run(d, bs[1..])
  }

  lemma ApplyKeepsState(c: Conf, o: Out, b: char)
    ensures Apply(c, o, b).p == o.p
  {
  }

  lemma {:induction false} RunAppend(c: Conf, a: string, b: string)
    ensures Run(c, a + b) == Run(Run(c, a), b)
    decreases |a|, Rank(c.p.state)
  {
    hide Dispatch, Apply, Rank;
    if a == [] {
      assert a + b == b;
    } else if c.halt == Running {
      var o := Dispatch(c.p, a[0]);
      var d := Apply(c, o, a[0]);
      AgainLowersRank(c.p, a[0]);
      ApplyKeepsState(c, o, a[0]);
      assert (a + b)[0] == a[0];
      if o.ctl == Again {
        RunAppend(d, a, b);
      } else {
        RunAppend(d, a[1..], b);
        assert (a + b)[1..] == a[1..] + b;
      }
    }
  }

  lemma RunStep(c: Conf, bs: string)
    requires c.halt.Running? && bs != []
    ensures var o := Dispatch(c.p, bs[0]);
            Run(c, bs) == Run(Apply(c, o, bs[0]), if o.ctl == Again then bs else bs[1..])
  {
    hide Dispatch, Apply;
  }

  lemma RunOne(c: Conf, b: char)
    requires c.halt.Running? && Dispatch(c.p, b).ctl != Again
    ensures Run(c, [b]) == Apply(c, Dispatch(c.p, b), b)
  {
    hide Dispatch, Apply;
    assert [b][1..] == "";
  }

  lemma ApplyNext(c: Conf, b: char)
    ensures Dispatch(c.p, b).ctl.Next? ==> Apply(c, Dispatch(c.p, b), b).halt == c.halt
    ensures Dispatch(c.p, b).ctl.Fail? ==> Apply(c, Dispatch(c.p, b), b).halt == Failed
    ensures Dispatch(c.p, b).ctl.Next? || Dispatch(c.p, b).ctl.Stop? ==> Apply(c, Dispatch(c.p, b), b).count == c.count + 1
  {
    hide Dispatch, Push, PushAll;
  }

  lemma RunHalted(c: Conf, bs: string)
    requires !c.halt.Running?
    ensures Run(c, bs) == c
  {
    hide Dispatch, Apply;
  }

  /** The bytes of `s` leave the parser as it is and make no callback of their own. */
  ghost predicate Idle(p: Parser, s: string) {
    forall x <- s :: Dispatch(p, x) == Go(p)
  }

  function Skipped(c: Conf, s: string): Conf {
    if s == "" then c
    else c.(trace := if c.open.Some? then Push(c.trace, Data(c.open.value, s)) else c.trace,
            nread := Counted(c.p, c.nread + |s|),
            count := c.count + |s|)
  }

  lemma ApplyGo(c: Conf, b: char)
    ensures Apply(c, Go(c.p), b) == Skipped(c, [b])
  {
    hide Push;
  }

  lemma SkippedTwice(c: Conf, b: char, s: string)
    ensures Skipped(Skipped(c, [b]), s) == Skipped(c, [b] + s)
  {
    hide Push;
    if s != "" && c.open.Some? {
      PushTwice(c.trace, c.open.value, [b], s);
    } else if s == "" {
      assert [b] + s == [b];
    }
  }

  lemma {:induction false} RunIdle(c: Conf, s: string, rest: string)
    requires c.halt.Running? && Idle(c.p, s)
    ensures Run(c, s + rest) == Run(Skipped(c, s), rest)
    decreases |s|
  {
    hide Dispatch, Apply, Push;
    if s == "" {
      assert s + rest == rest;
    } else {
      assert (s + rest)[0] == s[0] && (s + rest)[1..] == s[1..] + rest;
      assert s[0] in s;
      RunStep(c, s + rest);
      ApplyGo(c, s[0]);
      RunIdle(Skipped(c, [s[0]]), s[1..], rest);
      SkippedTwice(c, s[0], s[1..]);
      assert [s[0]] + s[1..] == s;
    }
  }

  lemma PushTwice(t: seq<Event>, k: DataKind, x: string, y: string)
    ensures Push(Push(t, Data(k, x)), Data(k, y)) == Push(t, Data(k, x + y))
  {
    var u := Push(t, Data(k, x));
    assert u[..|u| - 1] + [Data(k, u[|u| - 1].bytes + y)] == Push(t, Data(k, x + y)) by {
      if t != [] && t[|t| - 1].Data? && t[|t| - 1].kind == k {
        assert t[|t| - 1].bytes + x + y == t[|t| - 1].bytes + (x + y);
      }
    }
  }

  lemma PushOne(t: seq<Event>, e: Event)
    ensures PushAll(t, [e]) == Push(t, e)
  {
    assert PushAll(Push(t, e), [][..]) == Push(t, e);
  }

  lemma MergeSnoc(es: seq<Event>, e: Event)
    ensures Merge(es + [e]) == Push(Merge(es), e)
  {
    assert (es + [e])[..|es|] == es;
  }

  lemma {:induction false} MergeAppend(es: seq<Event>, fs: seq<Event>)
    ensures Merge(es + fs) == PushAll(Merge(es), fs)
    decreases |fs|
  {
    hide Push;
    if fs == [] {
      assert es + fs == es;
    } else {
      MergeSnoc(es, fs[0]);
      MergeAppend(es + [fs[0]], fs[1..]);
      assert es + fs == es + [fs[0]] + fs[1..];
    }
  }
}
