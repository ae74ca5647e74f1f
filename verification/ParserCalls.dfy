/** Sequences of calls to the parser, the end-of-stream call with an empty buffer included. */
module ParserCalls {
  import opened ParserTypes
  import opened Transition
  import opened ParserRun
  import opened ParserInvariant
  import opened Execute
  import opened MarkedData
  import opened SplitInvariance
  import opened AnyCut

  /** What a caller sees of a parser: its fields, and the callbacks made so far, adjacent data merged. */
  datatype Object = Object(p: Parser, nread: nat, calls: seq<Event>)

  predicate BetweenMessages(s: State) {
    s.Beginning? && (s.start.PreStartReqOrRes? || s.start.PreStartRes? || s.start.PreStartReq?)
  }

  function ObjectOf(c: Conf): Object {
    Object(c.p, c.nread, CalledBack(c))
  }

  /** One call, and the number it returns. */
  function Executed(s: Object, data: string): (Object, nat) {
    if !s.p.errno.OK? then (s, 0)
    else if data != "" then
      var r := Call(s.p, s.nread, s.calls, data);
      (ObjectOf(r), r.count)
    else if s.p.state == InBody(BodyIdentityEof) then (s.(calls := Push(s.calls, MessageComplete)), 0)
    else if BetweenMessages(s.p.state) then (s, 0)
    else (s.(p := s.p.(errno := INVALID_EOF_STATE), nread := 0), 1)
  }

  function ExecutedAll(s: Object, buffers: seq<string>): Object
    decreases |buffers|
  {
    if buffers == [] then s else ExecutedAll(Executed(s, buffers[0]).0, buffers[1..])
  }

  function Start(s: Object): Conf {
    Between(s.p, s.nread, s.calls)
  }

  // Calls count their bytes from zero; `Feed` counts on.

  function Shift(c: Conf, k: nat): Conf {
    c.(count := c.count + k, since := if c.open.Some? then c.since + k else c.since)
  }

  lemma ShiftActed(c: Conf, o: Out, b: char, k: nat)
    ensures Acted(Shift(c, k), o, b) == Shift(Acted(c, o, b), k)
  {
    hide Push, PushAll;
    var d := c.(p := o.p, nread := if o.reset then 0 else c.nread);
    assert Opened(Shift(d, k), o.mark) == Shift(Opened(d, o.mark), k);
    var e := Opened(d, o.mark);
    assert Flushed(Shift(e, k), o.flush, b) == Shift(Flushed(e, o.flush, b), k);
  }

  lemma ShiftApply(c: Conf, o: Out, b: char, k: nat)
    ensures Apply(Shift(c, k), o, b) == Shift(Apply(c, o, b), k)
  {
    hide Push, PushAll, Acted;
    ShiftActed(c, o, b, k);
  }

  lemma {:induction false} ShiftRun(c: Conf, bs: string, k: nat)
    ensures Run(Shift(c, k), bs) == Shift(Run(c, bs), k)
    decreases |bs|, Rank(c.p.state)
  {
    hide Dispatch, Apply, Rank;
    if bs != [] && c.halt == Running {
      var o := Dispatch(c.p, bs[0]);
      ShiftApply(c, o, bs[0], k);
      AgainLowersRank(c.p, bs[0]);
      ApplyKeepsState(c, o, bs[0]);
      ShiftRun(Apply(c, o, bs[0]), if o.ctl == Again then bs else bs[1..], k);
    }
  }

  lemma ShiftEnds(c: Conf, k: nat)
    ensures Exit(Shift(c, k)) == Shift(Exit(c), k) && Resume(Shift(c, k)) == Shift(Resume(c), k)
    ensures ObjectOf(Shift(c, k)) == ObjectOf(c)
  {
    hide Push;
  }

  lemma {:induction false} ShiftFeed(c: Conf, pieces: seq<string>, k: nat)
    ensures Feed(Shift(c, k), pieces) == Shift(Feed(c, pieces), k)
    decreases |pieces|
  {
    hide Run, Exit, Resume;
    if pieces != [] && c.halt.Running? {
      ShiftEnds(c, k);
      ShiftRun(Resume(c), pieces[0], k);
      ShiftEnds(Run(Resume(c), pieces[0]), k);
      ShiftFeed(Exit(Run(Resume(c), pieces[0])), pieces[1..], k);
    }
  }

  /** Between two calls only the fields count. */
  lemma RestartFeed(c: Conf, pieces: seq<string>)
    requires c.halt.Running? && Counted(c.p, c.nread) == c.nread
    ensures ObjectOf(Feed(Start(ObjectOf(c)), pieces)) == ObjectOf(Feed(c, pieces))
  {
    hide Run, Exit;
    var d := Start(ObjectOf(c));
    if pieces == [] {
    } else {
      assert Resume(c) == Shift(Resume(d), c.count) by { RestartResume(c); }
      ShiftRun(Resume(d), pieces[0], c.count);
      ShiftEnds(Run(Resume(d), pieces[0]), c.count);
      ShiftFeed(Exit(Run(Resume(d), pieces[0])), pieces[1..], c.count);
      ShiftEnds(Feed(Exit(Run(Resume(d), pieces[0])), pieces[1..]), c.count);
    }
  }

  lemma RestartResume(c: Conf)
    requires c.halt.Running? && Counted(c.p, c.nread) == c.nread
    ensures Resume(c) == Shift(Resume(Start(ObjectOf(c))), c.count)
  {
    hide Push;
  }

  /** A parser in error, or in a state the machine is meant to be in between two calls. */
  ghost predicate Sane(s: Object) {
    Valid(s.p) && Counted(s.p, s.nread) == s.nread && !s.p.errno.INVALID_INTERNAL_STATE?
  }

  lemma StartInv(s: Object)
    requires Sane(s) && s.p.errno.OK?
    ensures Inv(Resume(Start(s)))
  {
    hide GoodOpen, GoodHeader, GoodLength, GoodKind, Push;
  }

  lemma EndSane(c: Conf)
    requires Inv(c)
    ensures Sane(ObjectOf(Exit(c)))
  {
    hide GoodOpen, GoodHeader, GoodLength, GoodKind;
    if !c.halt.Failed? { EntryIsGood(c.p, c.open); }
  }

  lemma InitSane(junk: Parser, kind: Kind)
    ensures Sane(Object(Init(junk, kind), 0, []))
  {
  }

  /** A parser that is left so can be called. */
  lemma SaneStarts(s: Object)
    requires Sane(s) && s.p.errno.OK?
    ensures Starts(Start(s))
  {
    StartInv(s);
    hide Good, Push, Volume;
    var k := EntryMark(s.p.state);
    if k.Some? {
      PushLast(s.calls, k.value, "");
      VolumePush(s.calls, Data(k.value, ""));
    }
  }

  lemma {:induction false} ErrorStays(s: Object, buffers: seq<string>)
    requires !s.p.errno.OK?
    ensures ExecutedAll(s, buffers) == s
    decreases |buffers|
  {
    if buffers != [] { ErrorStays(s, buffers[1..]); }
  }

  lemma FailedHasErrno(c: Conf)
    requires Inv(c) && c.halt.Failed?
    ensures !c.p.errno.OK?
  {
  }

  lemma RunningIsCounted(c: Conf)
    requires Inv(c) && c.halt.Running?
    ensures c.p.errno.OK? && Counted(c.p, c.nread) == c.nread
  {
    hide GoodOpen, GoodHeader, GoodLength, GoodKind;
  }

  /** The calls on nonempty buffers are what `Feed` describes, as long as none ends in an upgrade. */
  lemma {:induction false} CallsAreFeed(s: Object, buffers: seq<string>)
    requires Sane(s) && s.p.errno.OK? && (forall x <- buffers :: x != "") && !Feed(Start(s), buffers).halt.Stopped?
    ensures ExecutedAll(s, buffers) == ObjectOf(Feed(Start(s), buffers))
    decreases |buffers|
  {
    hide Run, Exit, Resume, Inv, Ends, MarkOk, Dispatch, Valid;
    if buffers != [] {
      SaneStarts(s);
      var c := Start(s);
      var rest := buffers[1..];
      assert buffers[0] in buffers && forall x <- rest :: x in buffers;
      var d := Run(Resume(c), buffers[0]);
      var e := Exit(d);
      RunKeepsInv(Resume(c), buffers[0]);
      RunKeepsEnds(Resume(c), buffers[0]);
      RunMark(Resume(c), buffers[0]);
      ExitKeeps(d);
      assert Executed(s, buffers[0]).0 == ObjectOf(e);
      if e.halt.Running? {
        RunningIsCounted(e);
        EndSane(d);
        RestartFeed(e, rest);
        ShiftedHalt(e, rest);
        CallsAreFeed(ObjectOf(e), rest);
      } else {
        FeedHalted(e, rest);
        if e.halt.Failed? {
          FailedHasErrno(e);
          ErrorStays(ObjectOf(e), rest);
        }
      }
    }
  }

  lemma ShiftedHalt(c: Conf, pieces: seq<string>)
    requires c.halt.Running? && Counted(c.p, c.nread) == c.nread
    ensures Feed(Start(ObjectOf(c)), pieces).halt == Feed(c, pieces).halt
  {
    hide Run, Exit;
    var d := Start(ObjectOf(c));
    if pieces != [] {
      assert Resume(c) == Shift(Resume(d), c.count) by { RestartResume(c); }
      ShiftRun(Resume(d), pieces[0], c.count);
      ShiftEnds(Run(Resume(d), pieces[0]), c.count);
      ShiftFeed(Exit(Run(Resume(d), pieces[0])), pieces[1..], c.count);
    }
  }

  /** Split invariance of calls. However a stream with short headers is cut into buffers, the calls leave the parser
      that one call leaves; and all cuts make the same callbacks if and only if the stream does not fail with bytes
      under a mark and no header value lapses. A stream that ends in an upgrade is no longer the parser's from there on. */
  lemma CutCalls(s: Object, bs: string)
    requires Sane(s) && s.p.errno.OK? && Regular(Start(s), bs) && !Run(Resume(Start(s)), bs).halt.Stopped?
    ensures forall buffers :: IsCut(buffers, bs) ==>
              ExecutedAll(s, buffers).p == Executed(s, bs).0.p && ExecutedAll(s, buffers).nread == Executed(s, bs).0.nread
    ensures (forall buffers :: IsCut(buffers, bs) ==> ExecutedAll(s, buffers) == Executed(s, bs).0)
            <==> !Drops(Run(Resume(Start(s)), bs)) && NeverLapses(Resume(Start(s)), bs)
  {
    hide Run, Resume, Starts, Feed, Drops, CalledBack, Exit, Start, IsCut, ExecutedAll, NeverLapses, HeadersFit, Sane;
    SaneStarts(s);
    var c := Start(s);
    var r := Run(Resume(c), bs);
    WholeFits(c, bs);
    OneCall(s, bs);
    EveryCutAgrees(c, bs);
    forall buffers | IsCut(buffers, bs)
      ensures ExecutedAll(s, buffers) == ObjectOf(Feed(c, buffers))
      ensures Feed(c, buffers).p == r.p && Feed(c, buffers).nread == r.nread
    {
      StateOfCut(c, buffers, bs);
      NoneIsEmpty(buffers, bs);
      CallsAreFeed(s, buffers);
    }
    if forall buffers :: IsCut(buffers, bs) ==> ExecutedAll(s, buffers) == Executed(s, bs).0 {
      forall buffers | IsCut(buffers, bs)
        ensures CalledBack(Feed(c, buffers)) == CalledBack(r)
      {
        assert ExecutedAll(s, buffers) == Executed(s, bs).0;
      }
    }
  }

  /** And so for every parser in use: after initialisation and any calls that have left no error. */
  lemma CutCallsInUse(junk: Parser, kind: Kind, earlier: seq<string>, bs: string)
    requires var s := ExecutedAll(Object(Init(junk, kind), 0, []), earlier);
             s.p.errno.OK? && Regular(Start(s), bs) && !Run(Resume(Start(s)), bs).halt.Stopped?
    ensures var s := ExecutedAll(Object(Init(junk, kind), 0, []), earlier);
            && (forall buffers :: IsCut(buffers, bs) ==>
                  ExecutedAll(s, buffers).p == Executed(s, bs).0.p && ExecutedAll(s, buffers).nread == Executed(s, bs).0.nread)
            && ((forall buffers :: IsCut(buffers, bs) ==> ExecutedAll(s, buffers) == Executed(s, bs).0)
                <==> !Drops(Run(Resume(Start(s)), bs)) && NeverLapses(Resume(Start(s)), bs))
  {
    hide Run, Resume, Drops, Start, IsCut, ExecutedAll, Executed, NeverLapses, HeadersFit, Sane, Init;
    InitSane(junk, kind);
    CallsStaySane(Object(Init(junk, kind), 0, []), earlier);
    CutCalls(ExecutedAll(Object(Init(junk, kind), 0, []), earlier), bs);
  }

  lemma NoneIsEmpty(buffers: seq<string>, bs: string)
    requires IsCut(buffers, bs)
    ensures forall x <- buffers :: x != ""
  {
  }

  lemma OneCall(s: Object, bs: string)
    requires s.p.errno.OK? && bs != ""
    ensures Executed(s, bs).0 == ObjectOf(Exit(Run(Resume(Start(s)), bs)))
  {
    hide Run, Exit, Resume;
  }

  lemma CallStaysSane(s: Object, data: string)
    requires Sane(s)
    ensures Sane(Executed(s, data).0)
  {
    hide Inv, Run, Exit, Resume;
    if s.p.errno.OK? && data != "" {
      StartInv(s);
      RunKeepsInv(Resume(Start(s)), data);
      EndSane(Run(Resume(Start(s)), data));
      OneCall(s, data);
    } else {
      EmptyStaysSane(s, data);
    }
  }

  /** Over any sequence of calls, end-of-stream calls included, the branches that the code calls impossible stay
      out of reach, and the parser is left in a state that its next call can be made in. */
  lemma {:induction false} CallsStaySane(s: Object, buffers: seq<string>)
    requires Sane(s)
    ensures Sane(ExecutedAll(s, buffers))
    decreases |buffers|
  {
    hide Sane, Executed;
    if buffers != [] {
      CallStaysSane(s, buffers[0]);
      CallsStaySane(Executed(s, buffers[0]).0, buffers[1..]);
    }
  }

  lemma EmptyStaysSane(s: Object, data: string)
    requires Sane(s) && (data == "" || !s.p.errno.OK?)
    ensures Sane(Executed(s, data).0)
  {
    hide Good, Call;
  }
}
