/** `http_parser_execute` over one buffer: marks that become data callbacks, bulk consumption of
    bodies, and the fast-forward loops, proved equal to the byte-at-a-time run. */
module Execute {
  import opened Chars
  import opened Options
  import opened ParserTypes
  import opened Transition
  import opened ParserRun
  import opened ParserInvariant

  /** The mark set on entry, by the state that the last call left. */
  function EntryMark(s: State): Option<DataKind> {
    match s
    case InField(f) => if f.HeaderField? then Some(Field) else None
    case InValue(v) => if v.HeaderValue? then Some(Value) else None
    case InUrl(_) => Some(Url)
    case StatusLine(l) => if l.ResStatus? then Some(Reason) else None
    case _ => None
  }

  /** A parser between two calls. */
  function Between(p: Parser, nread: nat, trace: seq<Event>): Conf {
    Conf(p, Counted(p, nread), None, trace, 0, Running, [], 0)
  }

  /** The start of a call: the marks of the last one are gone. */
  function Resume(c: Conf): Conf {
    Opened(Unopened(c), EntryMark(c.p.state))
  }

  function Entry(p: Parser, nread: nat, trace: seq<Event>): Conf {
    Resume(Between(p, nread, trace))
  }

  /** The overflow check at the end of a buffer. The counter is 32 bits wide. */
  function Exit(c: Conf): Conf {
    if c.halt.Running? && ParsingHeader(c.p.state) then
      var n := c.nread % UINT32_SPAN;
      if n > HTTP_MAX_HEADER_SIZE then c.(p := c.p.(errno := HEADER_OVERFLOW), nread := 0, halt := Failed)
      else c.(nread := n)
    else c
  }

  /** What one call means, byte by byte. */
  function Call(p: Parser, nread: nat, trace: seq<Event>, data: string): Conf {
    Exit(Run(Entry(p, nread, trace), data))
  }

  predicate Valid(p: Parser) {
    p.errno.OK? ==> Good(p, EntryMark(p.state))
  }

  /** The five marks, each a position in the buffer, and the callbacks made. */
  datatype Work = Work(marks: map<DataKind, nat>, made: seq<Event>)

  function Mark(w: Work, k: DataKind, i: nat): Work {
    if k in w.marks then w else w.(marks := w.marks[k := i])
  }

  /** Deliver the bytes from the mark up to `end`, if the mark is set. */
  function Deliver(w: Work, k: DataKind, data: string, end: nat): Work
    requires end <= |data|
    requires k in w.marks ==> w.marks[k] <= end
  {
    if k in w.marks then Work(w.marks - {k}, w.made + [Data(k, data[w.marks[k]..end])]) else w
  }

  /** The trace of `c` is what the callbacks made and the bytes under a mark amount to; at most one mark is set. */
  ghost predicate Shows(w: Work, c: Conf, data: string, i: nat)
    requires i <= |data|
  {
    match c.open
    case None => w.marks == map[] && c.trace == Merge(w.made)
    case Some(k) =>
      w.marks == map[k := c.since] && c.since <= i && c.made == Merge(w.made)
      && c.trace == Push(c.made, Data(k, data[c.since..i]))
  }

  ghost predicate WorkOk(w: Work, i: nat) {
    forall k <- w.marks :: w.marks[k] <= i
  }

  function Perform(w: Work, o: Out, data: string, i: nat): Work
    requires i < |data| && WorkOk(w, i)
  {
    var w := if o.mark.Some? then Mark(w, o.mark.value, i) else w;
    var w := match o.flush {
               case Keep => w
               case Before(k) => Deliver(w, k, data, i)
               case Through(k) => Deliver(w, k, data, i + 1)
             };
    w.(made := w.made + o.calls)
  }

  lemma OpenedShows(w: Work, c: Conf, mark: Option<DataKind>, data: string, i: nat)
    requires i <= |data| && Shows(w, c, data, i) && c.count == i
    requires mark.Some? ==> c.open.None? || c.open == mark
    ensures var w' := if mark.Some? then Mark(w, mark.value, i) else w;
            Shows(w', Opened(c, mark), data, i)
  {
    if mark.Some? && c.open.None? {
      assert data[i..i] == "";
    }
  }

  lemma DeliverShows(w: Work, c: Conf, data: string, i: nat)
    requires i <= |data| && Shows(w, c, data, i) && c.open.Some?
    ensures Shows(Deliver(w, c.open.value, data, i), Unopened(c), data, i)
  {
    var k := c.open.value;
    MergeSnoc(w.made, Data(k, data[w.marks[k]..i]));
    assert w.marks - {k} == map[];
  }

  lemma AdvanceShows(w: Work, c: Conf, data: string, i: nat, j: nat)
    requires i <= j <= |data| && Shows(w, c, data, i) && c.open.Some?
    ensures Shows(w, c.(trace := Push(c.trace, Data(c.open.value, data[i..j]))), data, j)
  {
    PushTwice(Merge(w.made), c.open.value, data[c.since..i], data[i..j]);
    assert data[c.since..i] + data[i..j] == data[c.since..j];
  }

  lemma ThroughShows(w: Work, c: Conf, data: string, i: nat)
    requires i < |data| && Shows(w, c, data, i) && c.open.Some?
    ensures Shows(Deliver(w, c.open.value, data, i + 1), Unopened(c).(trace := Push(c.trace, Data(c.open.value, [data[i]]))), data, i)
  {
    hide Push;
    assert data[i..i + 1] == [data[i]];
    AdvanceShows(w, c, data, i, i + 1);
    DeliverShows(w, c.(trace := Push(c.trace, Data(c.open.value, [data[i]]))), data, i + 1);
  }

  lemma PerformShows(w: Work, c: Conf, o: Out, data: string, i: nat)
    requires i < |data| && Shows(w, c, data, i) && c.count == i
    requires Compatible(c.open, o)
    ensures WorkOk(w, i)
    ensures Shows(Perform(w, o, data, i), Acted(c, o, data[i]), data, i)
  {
    hide Push, PushAll, Merge;
    var c1 := c.(p := o.p, nread := if o.reset then 0 else c.nread);
    var c2 := Opened(c1, o.mark);
    var w2 := if o.mark.Some? then Mark(w, o.mark.value, i) else w;
    OpenedShows(w, c1, o.mark, data, i);
    assert c2.open == OpenMid(c.open, o);
    var c3 := Flushed(c2, o.flush, data[i]);
    var w3 := match o.flush {
                case Keep => w2
                case Before(k) => Deliver(w2, k, data, i)
                case Through(k) => Deliver(w2, k, data, i + 1)
              };
    if !o.flush.Keep? && c2.open.Some? {
      if o.flush.Before? {
        DeliverShows(w2, c2, data, i);
      } else {
        ThroughShows(w2, c2, data, i);
      }
    }
    assert Shows(w3, c3, data, i);
    if o.calls != [] {
      MergeAppend(w3.made, o.calls);
    } else {
      assert w3.made + o.calls == w3.made;
      assert PushAll(c3.trace, o.calls) == c3.trace by {
        PushNone(c3.trace);
      }
    }
  }

  lemma PushNone(t: seq<Event>)
    ensures PushAll(t, []) == t
  {
  }

  // Bulk consumption.

  predicate Bulk(s: State) {
    s == InBody(BodyIdentity) || s == InBody(ChunkData)
  }

  /** The configuration after the bytes of `s`, fewer than the body still lacks. */
  function Eaten(c: Conf, s: string): Conf {
    if s == "" then c
    else
      var d := Opened(c, Some(Body));
      d.(p := c.p.(contentLength := c.p.contentLength - |s|), nread := 0,
         trace := if d.open.Some? then Push(d.trace, Data(d.open.value, s)) else d.trace,
         count := c.count + |s|)
  }

  lemma BodyByte(c: Conf, b: char)
    requires Bulk(c.p.state) && c.p.contentLength > 1
    ensures var o := Dispatch(c.p, b);
            o.ctl == Next && Apply(c, o, b) == Eaten(c, [b])
  {
    hide Push;
  }

  lemma EatenTwice(c: Conf, b: char, s: string)
    requires c.open.None? || c.open == Some(Body)
    ensures Eaten(Eaten(c, [b]), s) == Eaten(c, [b] + s)
  {
    hide Push;
    if s == "" {
      assert [b] + s == [b];
    } else {
      PushTwice(Opened(c, Some(Body)).trace, Body, [b], s);
    }
  }

  /** A body of which more than `|s|` bytes are to come takes them in one piece. */
  lemma {:induction false} RunBulk(c: Conf, s: string, rest: string)
    requires c.halt.Running? && Bulk(c.p.state) && (c.open.None? || c.open == Some(Body))
    requires |s| < c.p.contentLength
    ensures Run(c, s + rest) == Run(Eaten(c, s), rest)
    decreases |s|
  {
    hide Dispatch, Apply, Push;
    if s == "" {
      assert s + rest == rest;
    } else {
      assert (s + rest)[0] == s[0] && (s + rest)[1..] == s[1..] + rest;
      RunStep(c, s + rest);
      BodyByte(c, s[0]);
      RunBulk(Eaten(c, [s[0]]), s[1..], rest);
      EatenTwice(c, s[0], s[1..]);
      assert [s[0]] + s[1..] == s;
    }
  }

  lemma EatenShows(w: Work, c: Conf, data: string, i: nat, j: nat)
    requires i < j <= |data| && Shows(w, c, data, i) && c.count == i && (c.open.None? || c.open == Some(Body))
    ensures Shows(Mark(w, Body, i), Eaten(c, data[i..j]), data, j)
  {
    hide Push, Merge;
    OpenedShows(w, c, Some(Body), data, i);
    AdvanceShows(Mark(w, Body, i), Opened(c, Some(Body)), data, i, j);
  }

  /** A state outside the body is entered from the body with the byte count restarted. */
  lemma LeavingBodyResets(p: Parser, b: char)
    requires p.state.InBody? && !Dispatch(p, b).p.state.InBody?
    ensures Dispatch(p, b).reset
  {
  }

  // Fast-forwarding.

  predicate IsPlain(c: char) {
    c != CR && c != LF && c != QUOTE && c != BACKSLASH && IsHeaderChar(c)
  }

  lemma TokensAreIdle(p: Parser, s: string)
    requires p.state == InField(HeaderField) && p.headerState.General?
    requires forall x <- s :: IsToken(x)
    ensures Idle(p, s)
  {
    forall x <- s
      ensures Dispatch(p, x) == Go(p)
    {
      assert IsToken(x);
    }
  }

  lemma PlainIsIdle(p: Parser, s: string)
    requires p.state == InValue(HeaderValue) && (p.headerState.General? || p.headerState.GeneralAndQuote?)
    requires forall x <- s :: IsPlain(x)
    ensures Idle(p, s)
  {
    forall x <- s
      ensures Dispatch(p, x) == Go(p)
    {
      assert IsPlain(x);
    }
  }

  lemma ValueByte(p: Parser, x: char)
    requires p.state == InValue(HeaderValue) && p.headerState.General? && x != CR && x != LF && IsHeaderChar(x)
    ensures Dispatch(p, x) == Go(p.(headerState := if x == QUOTE then GeneralAndQuote else General))
  {
  }

  lemma SkippedShows(w: Work, c: Conf, data: string, i: nat, j: nat)
    requires i <= j <= |data| && Shows(w, c, data, i)
    ensures Shows(w, Skipped(c, data[i..j]), data, j)
  {
    hide Push, Merge;
    if i < j && c.open.Some? {
      AdvanceShows(w, c, data, i, j);
    }
  }

  /** The unrolled loop over a header field: looks at up to eight, or three, bytes after position `i`,
      as many as are sure to be in the buffer, and stops at the first that is no token. */
  method SkipTokens(data: string, i: nat) returns (j: nat, hit: bool)
    requires i < |data| && IsToken(data[i])
    ensures i <= j < |data|
    ensures forall x :: i <= x < j ==> IsToken(data[x])
    ensures hit <==> !IsToken(data[j])
  {
    var moves := if |data| - i >= 9 then 8 else if |data| - i >= 4 then 3 else 0;
    j, hit := i, false;
    while j < i + moves && !hit
      invariant i <= j <= i + moves < |data|
      invariant forall x :: i <= x < j ==> IsToken(data[x])
      invariant hit <==> !IsToken(data[j])
      decreases i + moves - j, !hit
    {
      j := j + 1;
      hit := !IsToken(data[j]);
    }
  }

  /** The unrolled loop over a header value: up to eleven, or four, bytes after position `i`; stops at
      a byte that the value states treat in their own way. */
  method SkipPlain(data: string, i: nat) returns (j: nat, hit: bool)
    requires i < |data|
    ensures i <= j < |data|
    ensures forall x :: i < x < j ==> IsPlain(data[x])
    ensures hit ==> i < j && !IsPlain(data[j])
    ensures !hit && i < j ==> IsPlain(data[j])
  {
    var moves := if |data| - i >= 12 then 11 else if |data| - i >= 5 then 4 else 0;
    j, hit := i, false;
    while j < i + moves && !hit
      invariant i <= j <= i + moves < |data|
      invariant forall x :: i < x < j ==> IsPlain(data[x])
      invariant hit ==> i < j && !IsPlain(data[j])
      invariant !hit && i < j ==> IsPlain(data[j])
      decreases i + moves - j, !hit
    {
      j := j + 1;
      hit := !IsPlain(data[j]);
    }
  }

  // The loop.

  /** The local variables of the loop: the parser, `nread`, the position from which header bytes count,
      the marks and callbacks, and the position in the buffer. */
  datatype Local = Local(p: Parser, nread: nat, start: nat, work: Work, i: nat)

  ghost predicate Sim(c: Conf, v: Local, data: string) {
    && v.start <= v.i <= |data|
    && c.p == v.p && c.nread == Counted(v.p, v.nread + (v.i - v.start))
    && c.count == v.i && c.halt.Running? && Inv(c)
    && Shows(v.work, c, data, v.i)
  }

  /** What a call on `data` leaves is what the byte-at-a-time meaning `r` says, and what it has called back is
      what `r` has called back. The data that a failing call drops are the bytes from the mark on. */
  ghost predicate Refines(r: Conf, data: string, p: Parser, nread: nat, made: seq<Event>, consumed: nat) {
    && p == r.p && Counted(p, nread) == r.nread && consumed == r.count <= |data|
    && Merge(made) == CalledBack(r)
    && (r.open.Some? && r.halt.Failed? ==>
          r.since <= r.count && r.trace == Push(Merge(made), Data(r.open.value, data[r.since..r.count])))
  }

  /** One pass of the switch, with the marks it sets and the callbacks it makes. */
  function Passed(v: Local, o: Out, data: string): Local
    requires v.i < |data| && WorkOk(v.work, v.i)
  {
    Local(o.p, if o.reset then 0 else v.nread, if o.reset then v.i else v.start, Perform(v.work, o, data, v.i), v.i)
  }

  lemma PassCount(c: Conf, v: Local, o: Out, data: string)
    requires Sim(c, v, data) && v.i < |data| && WorkOk(v.work, v.i) && o == Dispatch(v.p, data[v.i])
    requires ErrnoStep(o) && v.p.errno.OK?
    ensures var d := Acted(c, o, data[v.i]);
            var u := Passed(v, o, data);
            Counted(d.p, d.nread) == Counted(u.p, u.nread + (v.i - u.start))
            && Counted(d.p, d.nread + 1) == Counted(u.p, u.nread + (v.i + 1 - u.start))
  {
    hide Dispatch, Inv, Shows, Perform, Push, PushAll;
    if v.p.state.InBody? && !o.p.state.InBody? {
      LeavingBodyResets(v.p, data[v.i]);
    }
  }

  lemma PassSim(c: Conf, v: Local, data: string) returns (d: Conf)
    requires Sim(c, v, data) && v.i < |data|
    ensures WorkOk(v.work, v.i)
    ensures var o := Dispatch(v.p, data[v.i]);
            var u := Passed(v, o, data);
            && (o.ctl.Next? ==> Sim(d, u.(i := v.i + 1), data) && Run(c, data[v.i..]) == Run(d, data[v.i + 1..]))
            && (o.ctl.Again? ==> Sim(d, u, data) && Run(c, data[v.i..]) == Run(d, data[v.i..]) && Rank(u.p.state) < Rank(v.p.state))
            && (o.ctl.Stop? ==> Run(c, data[v.i..]) == d && d.halt.Stopped? && Valid(u.p) && Refines(d, data, u.p, u.nread, u.work.made, v.i + 1))
            && (o.ctl.Fail? ==> Run(c, data[v.i..]) == d && d.halt.Failed? && !u.p.errno.OK? && Refines(d, data, u.p, u.nread, u.work.made, v.i))
  {
    hide Dispatch, GoodOpen, GoodHeader, GoodLength, GoodKind, Push, PushAll, Merge, Perform, Acted, Rank, StepOk;
    var bs := data[v.i..];
    var o := Dispatch(v.p, data[v.i]);
    assert bs[0] == data[v.i] && bs[1..] == data[v.i + 1..];
    StepOkParts(v.p, c.open, data[v.i]);
    RunStep(c, bs);
    ApplyKeepsInv(c, bs[0]);
    AgainLowersRank(v.p, data[v.i]);
    d := Apply(c, o, bs[0]);
    PerformShows(v.work, c, o, data, v.i);
    ActedParts(c, o, data[v.i]);
    PassCount(c, v, o, data);
    var a := Acted(c, o, data[v.i]);
    var u := Passed(v, o, data);
    if o.ctl.Next? && a.open.Some? {
      assert data[v.i..v.i + 1] == [data[v.i]];
      AdvanceShows(u.work, a, data, v.i, v.i + 1);
    }
    if o.ctl.Stop? {
      StoppedState(v.p, data[v.i]);
    }
  }

  lemma StepOkParts(p: Parser, open: Option<DataKind>, b: char)
    requires Good(p, open)
    ensures OpenStep(open, Dispatch(p, b)) && ErrnoStep(Dispatch(p, b))
    ensures !Dispatch(p, b).ctl.Fail? ==> Good(Dispatch(p, b).p, OpenAfter(open, Dispatch(p, b)))
  {
    hide Dispatch, Good, OpenStep, ErrnoStep;
    DispatchOk(p, open, b);
  }

  lemma StoppedState(p: Parser, b: char)
    requires Dispatch(p, b).ctl.Stop?
    ensures EntryMark(Dispatch(p, b).p.state).None? && Dispatch(p, b).reset
  {
    hide MethodByte, UrlByte, FirstLetter, IsToken, FieldLetter, IsNum, Unhex, FieldByte;
    match p.state
    case AtEnd(_) =>
    case InBody(_) =>
    case _ =>
  }

  /** The last byte of a gulp, taken by the switch. */
  lemma LastBodyByte(p: Parser, b: char)
    requires Bulk(p.state)
    ensures var q := p.(contentLength := p.contentLength - 1);
            Dispatch(p, b) ==
            if q.contentLength != 0 then Out(q, Some(Body), Keep, [], false, Next)
            else if p.state == InBody(ChunkData) then Out(q.(state := InBody(ChunkDataAlmostDone)), Some(Body), Keep, [], false, Next)
            else Out(q.(state := InBody(MessageDone)), Some(Body), Through(Body), [], false, Again)
  {
  }

  /** The variables after the bytes of a gulp but the last. */
  lemma GulpStart(c: Conf, v: Local, data: string, n: nat) returns (d: Conf, u: Local)
    requires Sim(c, v, data) && Bulk(v.p.state) && 0 < n <= v.p.contentLength && v.i + n <= |data|
    ensures u == Local(v.p.(contentLength := v.p.contentLength - (n - 1)), v.nread, v.start,
                       if n > 1 then Mark(v.work, Body, v.i) else v.work, v.i + n - 1)
    ensures Sim(d, u, data) && Run(c, data[v.i..]) == Run(d, data[u.i..])
  {
    hide Dispatch, Push, PushAll, Merge, Good, GoodHeader, GoodLength, GoodKind, Run;
    var s := data[v.i..v.i + n - 1];
    assert s + data[v.i + n - 1..] == data[v.i..];
    assert s + "" == s;
    assert c.open.None? || c.open == Some(Body) by { GoodBulk(v.p, c.open); }
    RunBulk(c, s, data[v.i + n - 1..]);
    RunBulk(c, s, "");
    RunKeepsInv(c, s);
    d := Eaten(c, s);
    RunNothing(d);
    u := Local(v.p.(contentLength := v.p.contentLength - (n - 1)), v.nread, v.start,
               if n > 1 then Mark(v.work, Body, v.i) else v.work, v.i + n - 1);
    if n > 1 {
      EatenShows(v.work, c, data, v.i, v.i + n - 1);
    } else {
      assert u.p == v.p;
    }
  }

  lemma GoodBulk(p: Parser, open: Option<DataKind>)
    requires Good(p, open) && Bulk(p.state)
    ensures open.None? || open == Some(Body)
    ensures p.contentLength > 0
  {
  }

  lemma RunNothing(c: Conf)
    ensures Run(c, "") == c
  {
  }

  /** Taking `min(content_length, bytes left)` at once is taking them one by one. */
  lemma GulpSim(c: Conf, v: Local, data: string, n: nat) returns (d: Conf)
    requires Sim(c, v, data) && Bulk(v.p.state) && 0 < n <= v.p.contentLength && v.i + n <= |data|
    ensures WorkOk(Mark(v.work, Body, v.i), v.i + n)
    ensures var q := v.p.(contentLength := v.p.contentLength - n);
            var w := Mark(v.work, Body, v.i);
            if q.contentLength != 0 then
              Sim(d, Local(q, v.nread, v.start, w, v.i + n), data) && Run(c, data[v.i..]) == Run(d, data[v.i + n..])
            else if v.p.state == InBody(ChunkData) then
              Sim(d, Local(q.(state := InBody(ChunkDataAlmostDone)), v.nread, v.start, w, v.i + n), data)
              && Run(c, data[v.i..]) == Run(d, data[v.i + n..])
            else
              Sim(d, Local(q.(state := InBody(MessageDone)), v.nread, v.start, Deliver(w, Body, data, v.i + n), v.i + n - 1), data)
              && Run(c, data[v.i..]) == Run(d, data[v.i + n - 1..])
  {
    hide Dispatch, Push, PushAll, Merge, Good, Inv, Run, Rank, Refines, Valid;
    var e, u := GulpStart(c, v, data, n);
    d := PassSim(e, u, data);
    LastBodyByte(u.p, data[u.i]);
    var w := Mark(v.work, Body, v.i);
    assert Mark(u.work, Body, u.i) == w;
    assert w.(made := w.made + []) == w;
    var w' := Deliver(w, Body, data, v.i + n);
    assert w'.(made := w'.made + []) == w';
  }

  lemma EofByte(c: Conf, b: char)
    requires c.p.state == InBody(BodyIdentityEof) && (c.open.None? || c.open == Some(Body))
    ensures Dispatch(c.p, b).ctl.Next?
    ensures var d := Opened(c, Some(Body));
            Apply(c, Dispatch(c.p, b), b) == d.(nread := 0, trace := Push(d.trace, Data(Body, [b])), count := c.count + 1)
  {
    hide Push;
  }

  /** A body that lasts until the end of the stream takes the whole buffer. */
  lemma {:induction false} EofSim(c: Conf, v: Local, data: string) returns (d: Conf)
    requires Sim(c, v, data) && v.i < |data| && v.p.state == InBody(BodyIdentityEof)
    ensures Sim(d, v.(work := Mark(v.work, Body, v.i), i := |data|), data)
    ensures Run(c, data[v.i..]) == d
    decreases |data| - v.i
  {
    hide Dispatch, Push, PushAll, Merge, GoodHeader, GoodLength, GoodKind, Run;
    var bs := data[v.i..];
    assert bs[0] == data[v.i] && bs[1..] == data[v.i + 1..] && [data[v.i]] == data[v.i..v.i + 1];
    RunStep(c, bs);
    EofByte(c, data[v.i]);
    ApplyKeepsInv(c, data[v.i]);
    var e := Apply(c, Dispatch(c.p, data[v.i]), data[v.i]);
    var w := Mark(v.work, Body, v.i);
    OpenedShows(v.work, c, Some(Body), data, v.i);
    AdvanceShows(w, Opened(c, Some(Body)), data, v.i, v.i + 1);
    var u := v.(work := w, i := v.i + 1);
    assert Sim(e, u, data);
    if u.i < |data| {
      d := EofSim(e, u, data);
    } else {
      RunNothing(e);
      d := e;
    }
  }

  lemma IdleSim(c: Conf, v: Local, data: string, j: nat) returns (d: Conf)
    requires Sim(c, v, data) && v.i <= j <= |data| && ParsingHeader(v.p.state)
    requires Idle(v.p, data[v.i..j])
    ensures Sim(d, v.(i := j), data)
    ensures Run(c, data[v.i..]) == Run(d, data[j..])
  {
    hide Dispatch, Idle, Push, PushAll, Merge, GoodOpen, GoodHeader, GoodLength, GoodKind, Run;
    var s := data[v.i..j];
    assert s + data[j..] == data[v.i..];
    assert s + "" == s;
    RunIdle(c, s, data[j..]);
    RunIdle(c, s, "");
    RunKeepsInv(c, s);
    d := Skipped(c, s);
    RunNothing(d);
    SkippedShows(v.work, c, data, v.i, j);
  }

  lemma EntrySim(p: Parser, nread: nat, made: seq<Event>, data: string)
    requires p.errno.OK? && Valid(p)
    ensures var k := EntryMark(p.state);
            var w := if k.Some? then Work(map[k.value := 0], made) else Work(map[], made);
            Sim(Entry(p, nread, Merge(made)), Local(p, nread, 0, w, 0), data)
  {
    hide Push, Merge, GoodOpen, GoodHeader, GoodLength, GoodKind;
    assert data[0..0] == "";
  }

  lemma ExitSim(c: Conf, v: Local, data: string)
    requires Sim(c, v, data)
    ensures var n := (v.nread + (v.i - v.start)) % UINT32_SPAN;
            Exit(c) ==
            if ParsingHeader(v.p.state) then
              if n > HTTP_MAX_HEADER_SIZE then c.(p := v.p.(errno := HEADER_OVERFLOW), nread := 0, halt := Failed)
              else c.(nread := n)
            else c
  {
    hide Push, Merge, GoodOpen, GoodHeader, GoodLength, GoodKind;
  }

  lemma EntryIsGood(p: Parser, open: Option<DataKind>)
    requires Good(p, open)
    ensures Valid(p)
  {
    hide GoodHeader, GoodLength, GoodKind;
  }

  /** The callbacks for marks left over at the end of the buffer; at most one of them is made. */
  function Leftovers(w: Work, data: string): Work
    requires WorkOk(w, |data|)
  {
    var n := |data|;
    Deliver(Deliver(Deliver(Deliver(Deliver(w, Field, data, n), Value, data, n), Url, data, n), Reason, data, n), Body, data, n)
  }

  lemma LeftoversDeliver(w: Work, c: Conf, data: string)
    requires Shows(w, c, data, |data|)
    ensures WorkOk(w, |data|)
    ensures Merge(Leftovers(w, data).made) == c.trace
  {
    hide Push, Merge;
    match c.open
    case None =>
    case Some(k) =>
      DeliverShows(w, c, data, |data|);
      assert forall j :: j != k ==> Deliver(w, j, data, |data|) == w;
  }

  /** The body states: take what the buffer holds of the body, up to its length. */
  method TakeBody(ghost c: Conf, v: Local, data: string) returns (u: Local, ghost d: Conf)
    requires Sim(c, v, data) && v.i < |data| && (Bulk(v.p.state) || v.p.state == InBody(BodyIdentityEof))
    ensures Sim(d, u, data) && Run(c, data[v.i..]) == Run(d, data[u.i..])
    ensures v.i < u.i || (v.i == u.i && Rank(u.p.state) < Rank(v.p.state))
  {
    hide Dispatch, Good, Push, PushAll, Merge, Run, Apply, Inv, Shows;
    var w := Mark(v.work, Body, v.i);
    if v.p.state == InBody(BodyIdentityEof) {
      d := EofSim(c, v, data);
      assert data[|data|..] == "";
      RunNothing(d);
      u := v.(work := w, i := |data|);
    } else {
      GoodSim(c, v, data);
      var toRead := if v.p.contentLength < |data| - v.i then v.p.contentLength else |data| - v.i;
      d := GulpSim(c, v, data, toRead);
      var p := v.p.(contentLength := v.p.contentLength - toRead);
      if p.contentLength != 0 {
        u := v.(p := p, work := w, i := v.i + toRead);
      } else if p.state == InBody(ChunkData) {
        u := v.(p := p.(state := InBody(ChunkDataAlmostDone)), work := w, i := v.i + toRead);
      } else {
        u := v.(p := p.(state := InBody(MessageDone)), work := Deliver(w, Body, data, v.i + toRead), i := v.i + toRead - 1);
      }
    }
  }

  /** A run of ordinary bytes of a header field, by the fast-forward loop. */
  method TakeTokens(ghost c: Conf, v: Local, data: string) returns (u: Local, ghost d: Conf)
    requires Sim(c, v, data) && v.i < |data|
    requires v.p.state == InField(HeaderField) && v.p.headerState.General? && IsToken(data[v.i])
    ensures Sim(d, u, data) && Run(c, data[v.i..]) == Run(d, data[u.i..])
    ensures v.i < u.i
  {
    hide Dispatch, Good, Push, PushAll, Merge, Run, Apply, Inv, Shows, Idle, IsToken;
    var j, hit := SkipTokens(data, v.i);
    var end := if hit then j else j + 1;
    TokensAreIdle(v.p, data[v.i..end]);
    d := IdleSim(c, v, data, end);
    u := v.(i := end);
  }

  /** A byte of an ordinary header value, and the run of ordinary bytes after it. */
  method TakePlain(ghost c: Conf, v: Local, data: string) returns (u: Local, ghost d: Conf)
    requires Sim(c, v, data) && v.i < |data| && v.p.state == InValue(HeaderValue) && v.p.headerState.General?
    requires data[v.i] != CR && data[v.i] != LF && IsHeaderChar(data[v.i])
    ensures Sim(d, u, data) && Run(c, data[v.i..]) == Run(d, data[u.i..])
    ensures v.i < u.i
  {
    hide Dispatch, Good, Push, PushAll, Merge, Run, Apply, Inv, Shows, Idle, IsPlain, Rank, Refines, Valid;
    d := PassSim(c, v, data);
    ValueByte(v.p, data[v.i]);
    var p := v.p.(headerState := if data[v.i] == QUOTE then GeneralAndQuote else General);
    assert v.work.(made := v.work.made + []) == v.work;
    assert Sim(d, v.(p := p, i := v.i + 1), data);
    var j, hit := SkipPlain(data, v.i);
    var end := if hit then j else j + 1;
    PlainIsIdle(p, data[v.i + 1..end]);
    d := IdleSim(d, v.(p := p, i := v.i + 1), data, end);
    u := v.(p := p, i := end);
  }

  /** `http_parser_execute` on a nonempty buffer, for a parser without error: the loop, with its marks,
      its gulps and its fast-forwarding, does what the byte-at-a-time run does. */
  method ExecuteBuffer(p0: Parser, nread0: nat, made0: seq<Event>, data: string)
    returns (p: Parser, nread: nat, made: seq<Event>, consumed: nat)
    requires p0.errno.OK? && Valid(p0) && data != ""
    ensures Valid(p)
    ensures Refines(Call(p0, nread0, Merge(made0), data), data, p, nread, made, consumed)
  {
    hide Dispatch, Good, Push, PushAll, Merge, Run, Rank, Apply, Inv, Valid, Shows, Perform, IsToken, Sim, Deliver, Entry;
    var entry := EntryMark(p0.state);
    var v := Local(p0, nread0, 0, if entry.Some? then Work(map[entry.value := 0], made0) else Work(map[], made0), 0);
    EntrySim(p0, nread0, made0, data);
    ghost var c := Entry(p0, nread0, Merge(made0));
    ghost var goal := Run(c, data);
    assert data[0..] == data;
    SimBounds(c, v, data);
    while v.i < |data|
      invariant v.i <= |data| && Sim(c, v, data)
      invariant Run(c, data[v.i..]) == goal
      decreases |data| - v.i, Rank(v.p.state)
    {
      var b := data[v.i];
      if Bulk(v.p.state) || v.p.state == InBody(BodyIdentityEof) {
        v, c := TakeBody(c, v, data);
      } else if v.p.state == InField(HeaderField) && v.p.headerState.General? && IsToken(b) {
        v, c := TakeTokens(c, v, data);
      } else if v.p.state == InValue(HeaderValue) && v.p.headerState.General? && b != CR && b != LF && IsHeaderChar(b) {
        v, c := TakePlain(c, v, data);
      } else {
        c := PassSim(c, v, data);
        var o := Dispatch(v.p, b);
        v := Passed(v, o, data);
        if o.ctl.Fail? || o.ctl.Stop? {
          p, nread, made, consumed := v.p, v.nread, v.work.made, if o.ctl.Stop? then v.i + 1 else v.i;
          if o.ctl.Fail? {
            FailedIsValid(p);
          }
          return;
        }
        if o.ctl.Next? {
          v := v.(i := v.i + 1);
        }
      }
      SimBounds(c, v, data);
    }
    assert data[v.i..] == "";
    RunNothing(c);
    SimBounds(c, v, data);
    ExitSim(c, v, data);
    EndSim(c, v, data);
    p, nread := v.p, v.nread;
    if ParsingHeader(p.state) {
      nread := (nread + (v.i - v.start)) % UINT32_SPAN;
      if nread > HTTP_MAX_HEADER_SIZE {
        p := p.(errno := HEADER_OVERFLOW);
        made, consumed := v.work.made, v.i;
        FailedIsValid(p);
        return;
      }
    }
    var w := Leftovers(v.work, data);
    made, consumed := w.made, |data|;
  }

  lemma SimBounds(c: Conf, v: Local, data: string)
    requires Sim(c, v, data)
    ensures v.start <= v.i <= |data|
    ensures c.p == v.p && c.count == v.i && c.halt.Running?
  {
    hide Good, Shows;
  }

  lemma GoodSim(c: Conf, v: Local, data: string)
    requires Sim(c, v, data) && Bulk(v.p.state)
    ensures v.p.contentLength > 0
  {
    hide GoodHeader, GoodKind, GoodOpen;
  }

  lemma FailedIsValid(p: Parser)
    requires !p.errno.OK?
    ensures Valid(p)
  {
  }

  lemma EndSim(c: Conf, v: Local, data: string)
    requires Sim(c, v, data) && v.i == |data|
    ensures v.p.errno.OK? && Valid(v.p) && (!ParsingHeader(v.p.state) ==> c.nread == 0)
    ensures WorkOk(v.work, |data|) && Merge(Leftovers(v.work, data).made) == c.trace
    ensures Merge(v.work.made) == if c.open.None? then c.trace else c.made
    ensures c.open.Some? ==> c.since <= |data| && c.trace == Push(c.made, Data(c.open.value, data[c.since..|data|]))
  {
    hide Push, Merge, GoodHeader, GoodLength, GoodKind;
    EntryIsGood(v.p, c.open);
    LeftoversDeliver(v.work, c, data);
  }
}
