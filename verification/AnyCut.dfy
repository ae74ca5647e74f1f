/** Split invariance on conditions that do not speak of the cuts, and where it ends. */
module AnyCut {
  import opened Chars
  import opened Options
  import opened Texts
  import opened ParserTypes
  import opened Transition
  import opened ParserRun
  import opened ParserInvariant
  import opened Execute
  import opened MarkedData
  import opened SplitInvariance

  /** The header bytes of a message never exceed the limit. */
  ghost predicate HeadersFit(c: Conf, bs: string) {
    forall n :: 0 <= n <= |bs| ==> Run(c, bs[..n]).nread <= HTTP_MAX_HEADER_SIZE
  }

  /** A value under way has its mark. */
  predicate Marked(c: Conf) {
    c.halt.Running? ==> !Unmarked(c)
  }

  /** Nowhere does a header value go on after it has lost its mark to a bare CR. */
  ghost predicate NeverLapses(c: Conf, bs: string) {
    forall n :: 0 <= n < |bs| ==> !LapsesAt(Run(c, bs[..n]), bs[n])
  }

  predicate LapsesAt(c: Conf, b: char) {
    c.halt.Running? && Lapses(c, b)
  }

  /** What is asked of a stream is asked of its rest after a cut. */
  lemma AskedLater(c: Conf, a: string, b: string)
    requires Inv(c) && Ends(c) && MarkOk(c) && a != "" && b != "" && HeadersFit(c, a + b) && NeverLapses(c, a + b)
    requires Run(c, a).halt.Running?
    ensures var d := Run(c, a);
            && d.nread <= HTTP_MAX_HEADER_SIZE && !Lapses(d, b[0])
            && HeadersFit(Resume(d), b) && NeverLapses(Resume(d), b)
  {
    hide Run, Inv, Ends, Resume, MarkOk, Lapses, Grown, Cut, Faulted;
    var d := Run(c, a);
    assert (a + b)[..|a|] == a && (a + b)[|a|] == b[0];
    RunKeepsInv(c, a);
    RunKeepsEnds(c, a);
    RunMark(c, a);
    forall n | 0 <= n <= |b|
      ensures Run(Resume(d), b[..n]).nread <= HTTP_MAX_HEADER_SIZE
      ensures n < |b| ==> !LapsesAt(Run(Resume(d), b[..n]), b[n])
    {
      assert (a + b)[..|a| + n] == a + b[..n];
      assert n < |b| ==> (a + b)[|a| + n] == b[n];
      RunAppend(c, a, b[..n]);
      if n == 0 {
        RunNothing(Resume(d));
        RunNothing(d);
        ResumeState(d);
        ResumeNeverLapses(d, b[0]);
      } else {
        MatchesLater(d, b[..n]);
        LapsesSame(Run(Resume(d), b[..n]), Run(d, b[..n]), if n < |b| then b[n] else LF);
      }
    }
  }

  /** A cut where no value lapses. */
  lemma MatchesLater(c: Conf, bs: string)
    requires Inv(c) && c.halt.Running? && Ends(c) && MarkOk(c) && Grown(c) && bs != "" && !Lapses(c, bs[0])
    ensures Matches(Run(Resume(c), bs), Run(c, bs))
  {
    hide Run, Inv, Ends, Resume, MarkOk, Grown, Cut, Faulted, EndsValue;
    if Unmarked(c) && !EndsValue(c.p, bs[0]) { RunFault(c, bs); } else { RunResume(c, bs); }
  }

  lemma LapsesSame(c: Conf, d: Conf, b: char)
    requires Matches(c, d)
    ensures c.nread == d.nread && (LapsesAt(c, b) <==> LapsesAt(d, b))
  {
    hide Volume, EndsValue, Dispatch;
  }

  lemma ResumeNeverLapses(c: Conf, b: char)
    ensures !LapsesAt(Resume(c), b)
  {
    hide EndsValue, Dispatch;
    ResumeIsMarked(c);
  }

  lemma ResumeIsMarked(c: Conf)
    ensures Marked(Resume(c))
  {
  }

  /** A stream with short headers in which no value lapses may be cut anywhere. */
  lemma {:induction false} AnyCutIsOk(c: Conf, pieces: seq<string>)
    requires Starts(c) && (forall x <- pieces :: x != "")
    requires NeverLapses(Resume(c), Concat(pieces)) && HeadersFit(Resume(c), Concat(pieces))
    ensures CutsOk(c, pieces)
    decreases |pieces|
  {
    hide Run, Inv, Ends, Resume, HeadersFit, NeverLapses, MarkOk, Grown, Lapses;
    if |pieces| >= 2 {
      var a, rest := pieces[0], pieces[1..];
      var b := Concat(rest);
      assert pieces[0] in pieces && pieces[1] in pieces && rest[0] == pieces[1];
      ConcatFirst(rest);
      var d := Run(Resume(c), a);
      RunKeepsInv(Resume(c), a);
      RunKeepsEnds(Resume(c), a);
      RunMark(Resume(c), a);
      if d.halt.Running? {
        AskedLater(Resume(c), a, b);
        assert forall x <- rest :: x in pieces;
        ResumeKeeps(d);
        AnyCutIsOk(d, rest);
      } else {
        StoppedIsOk(d, rest);
      }
    }
  }

  lemma StoppedIsOk(c: Conf, pieces: seq<string>)
    requires !c.halt.Running?
    ensures CutsOk(c, pieces)
  {
  }

  // When the callbacks agree.

  /** A run has failed with bytes under a mark, which are never called back. */
  predicate Drops(c: Conf) {
    c.halt.Failed? && c.open.Some? && c.since < c.count
  }

  lemma {:induction false} RunCounts(c: Conf, bs: string)
    requires c.halt.Running?
    ensures Run(c, bs).halt.Running? ==> Run(c, bs).count == c.count + |bs|
    ensures Run(c, bs).halt.Failed? ==>
              var n := Run(c, bs).count - c.count;
              0 <= n < |bs| && Run(c, bs[..n]).halt.Running?
    decreases |bs|, Rank(c.p.state)
  {
    hide Dispatch, Apply, Rank;
    if bs != [] {
      var o := Dispatch(c.p, bs[0]);
      var d := Apply(c, o, bs[0]);
      AgainLowersRank(c.p, bs[0]);
      ApplyKeepsState(c, o, bs[0]);
      ApplyHalts(c, o, bs[0]);
      if o.ctl.Fail? {
        RunHalted(d, bs[1..]);
      } else if o.ctl.Stop? {
        RunHalted(d, bs[1..]);
      } else {
        var rest := if o.ctl == Again then bs else bs[1..];
        RunCounts(d, rest);
        if Run(c, bs).halt.Failed? {
          var n := Run(c, bs).count - c.count;
          if n > 0 {
            assert bs[..n][0] == bs[0];
            RunStep(c, bs[..n]);
            assert o.ctl.Next? ==> bs[..n][1..] == rest[..n - 1];
          }
        }
      }
    }
  }

  lemma ApplyHalts(c: Conf, o: Out, b: char)
    requires c.halt.Running?
    ensures var d := Apply(c, o, b);
            match o.ctl
            case Next => d.halt.Running? && d.count == c.count + 1
            case Again => d.halt.Running? && d.count == c.count
            case Stop => d.halt.Stopped?
            case Fail => d.halt.Failed? && d.count == c.count
  {
    hide Push, PushAll;
  }

  /** A division of the stream into nonempty buffers. */
  ghost predicate IsCut(pieces: seq<string>, bs: string) {
    Concat(pieces) == bs && forall x <- pieces :: x != ""
  }

  /** What the statements below ask of a stream, before and regardless of any cut. */
  ghost predicate Regular(c: Conf, bs: string) {
    bs != "" && HeadersFit(Resume(c), bs)
  }

  lemma WholeFits(c: Conf, bs: string)
    requires Starts(c) && Regular(c, bs)
    ensures Exit(Run(Resume(c), bs)) == Run(Resume(c), bs)
  {
    hide Run, Resume, Inv, Ends, MarkOk;
    assert bs[..|bs|] == bs;
    RunKeepsInv(Resume(c), bs);
    SmallExit(Run(Resume(c), bs));
  }

  // The state does not depend on the cuts at all.

  predicate SameState(c: Conf, d: Conf) {
    c.p == d.p && c.nread == d.nread && c.count == d.count && c.halt == d.halt
  }

  lemma ActedState(c: Conf, o: Out, b: char)
    ensures var d := Acted(c, o, b);
            d.p == o.p && d.nread == (if o.reset then 0 else c.nread) && d.count == c.count && d.halt == c.halt
  {
    hide Push, PushAll;
  }

  lemma SameApply(c: Conf, d: Conf, o: Out, b: char)
    requires SameState(c, d)
    ensures SameState(Apply(c, o, b), Apply(d, o, b))
  {
    hide Push, Acted;
    ActedState(c, o, b);
    ActedState(d, o, b);
  }

  lemma {:induction false} SameRun(c: Conf, d: Conf, bs: string)
    requires SameState(c, d)
    ensures SameState(Run(c, bs), Run(d, bs))
    decreases |bs|, Rank(c.p.state)
  {
    hide Dispatch, Apply, Rank;
    if bs != [] && c.halt == Running {
      var o := Dispatch(c.p, bs[0]);
      SameApply(c, d, o, bs[0]);
      AgainLowersRank(c.p, bs[0]);
      ApplyKeepsState(c, o, bs[0]);
      SameRun(Apply(c, o, bs[0]), Apply(d, o, bs[0]), if o.ctl == Again then bs else bs[1..]);
    }
  }

  /** Every cut leaves the state and the counts of the whole. */
  lemma {:induction false} CutLeavesState(c: Conf, d: Conf, pieces: seq<string>)
    requires SameState(c, d) && HeadersFit(d, Concat(pieces))
    ensures SameState(Feed(c, pieces), Run(d, Concat(pieces)))
    decreases |pieces|
  {
    hide Run, Resume, Exit;
    if pieces == [] {
      RunNothing(d);
    } else if c.halt.Running? {
      var a, b := pieces[0], Concat(pieces[1..]);
      ResumeState(c);
      SameRun(Resume(c), d, a);
      RunAppend(d, a, b);
      PrefixFits(d, a + b, |a|);
      assert (a + b)[..|a|] == a;
      FitExit(Run(Resume(c), a));
      FitsLater(d, a, b);
      CutLeavesState(Exit(Run(Resume(c), a)), Run(d, a), pieces[1..]);
    } else {
      RunHalted(d, Concat(pieces));
    }
  }

  lemma FitExit(c: Conf)
    requires c.nread <= HTTP_MAX_HEADER_SIZE
    ensures Exit(c) == c
  {
  }

  lemma FitsLater(c: Conf, a: string, b: string)
    requires HeadersFit(c, a + b)
    ensures HeadersFit(Run(c, a), b)
  {
    hide Run;
    forall n | 0 <= n <= |b|
      ensures Run(Run(c, a), b[..n]).nread <= HTTP_MAX_HEADER_SIZE
    {
      RunAppend(c, a, b[..n]);
      assert (a + b)[..|a| + n] == a + b[..n];
    }
  }

  lemma PrefixFits(c: Conf, bs: string, n: nat)
    requires HeadersFit(c, bs) && n <= |bs|
    ensures Run(c, bs[..n]).nread <= HTTP_MAX_HEADER_SIZE
  {
    hide Run;
  }

  /** Where no value lapses, every cut leaves the trace, and the callbacks if nothing is dropped. */
  lemma CutLeavesSame(c: Conf, pieces: seq<string>, bs: string)
    requires Starts(c) && Regular(c, bs) && NeverLapses(Resume(c), bs) && IsCut(pieces, bs)
    ensures Matches(Feed(c, pieces), Run(Resume(c), bs))
    ensures !Drops(Run(Resume(c), bs)) ==> CalledBack(Feed(c, pieces)) == CalledBack(Run(Resume(c), bs))
  {
    hide Run, Resume, Inv, Ends, Volume, Exit, Feed, CutsOk, NeverLapses, HeadersFit;
    assert pieces != [] && pieces[0] in pieces;
    WholeFits(c, bs);
    AnyCutIsOk(c, pieces);
    SplitInvariant(c, pieces);
    FeedKeepsInv(c, pieces);
  }

  /** The byte at fault lies behind the data under the mark. */
  lemma FaultPlace(c: Conf, bs: string)
    requires c.halt.Running? && Drops(Run(Resume(c), bs))
    ensures var r := Run(Resume(c), bs);
            var n := r.count - c.count;
            0 < n < |bs| && Run(Resume(c), bs[..n]).halt.Running? && Run(Resume(c), bs[..n]).count == r.count
  {
    hide Run, Resume;
    ResumeState(c);
    ResumeSince(c);
    RunCounts(Resume(c), bs);
    MarkIsLater(Resume(c), bs, c.count);
    RunCounts(Resume(c), bs[..Run(Resume(c), bs).count - c.count]);
  }

  /** A mark that is set at the end of the second of two calls was set in it. */
  lemma SecondCallMark(c: Conf, a: string, b: string)
    requires c.halt.Running? && Run(Resume(c), a).halt.Running? && Run(Resume(c), a).nread <= HTTP_MAX_HEADER_SIZE
    ensures Feed(c, [a, b]).open.Some? ==> Feed(c, [a, b]).since >= Run(Resume(c), a).count
  {
    hide Run, Resume, Exit, Feed;
    var d := Run(Resume(c), a);
    ExitState(d);
    TwoCalls(c, a, b);
    ResumeState(Exit(d));
    ResumeSince(Exit(d));
    MarkIsLater(Resume(Exit(d)), b, d.count);
    ExitState(Run(Resume(Exit(d)), b));
  }

  /** A stream that fails over data under a mark gives different callbacks if it is cut before the byte at fault. */
  lemma CutDiffers(c: Conf, bs: string)
    requires Starts(c) && Regular(c, bs) && NeverLapses(Resume(c), bs) && Drops(Run(Resume(c), bs))
    ensures var n := Run(Resume(c), bs).count - c.count;
            && 0 < n < |bs| && IsCut([bs[..n], bs[n..]], bs)
            && CalledBack(Feed(c, [bs[..n], bs[n..]])) != CalledBack(Run(Resume(c), bs))
  {
    hide Run, Resume, Inv, Ends, MarkOk, Volume, Exit, CutsOk, NeverLapses, HeadersFit, Feed, CalledBack;
    FaultPlace(c, bs);
    var n := Run(Resume(c), bs).count - c.count;
    var a, b := bs[..n], bs[n..];
    assert a + b == bs;
    ConcatTwo(a, b);
    PrefixFits(Resume(c), bs, n);
    SecondCallMark(c, a, b);
    AnyCutIsOk(c, [a, b]);
    WholeFits(c, bs);
    SplitInvariant(c, [a, b]);
    MatchesParts(Feed(c, [a, b]), Run(Resume(c), bs));
    SplitExact(c, [a, b]);
  }

  lemma ConcatTwo(a: string, b: string)
    ensures Concat([a, b]) == a + b && Concat([a]) == a
  {
    assert [a, b][1..] == [b] && [b][1..] == [] && [a][1..] == [];
    assert Concat([b]) == b + Concat([]);
    assert b + "" == b && a + "" == a;
  }

  lemma TwoCalls(c: Conf, a: string, b: string)
    requires c.halt.Running?
    ensures Exit(Run(Resume(c), a)).halt.Running? ==> Feed(c, [a, b]) == Exit(Run(Resume(Exit(Run(Resume(c), a))), b))
  {
    hide Run, Resume, Exit;
    assert [a, b][1..] == [b] && [b][1..] == [];
    var e := Exit(Run(Resume(c), a));
    assert Feed(c, [a, b]) == Feed(e, [b]);
  }

  lemma ResumeSince(c: Conf)
    ensures Resume(c).open.Some? ==> Resume(c).since == c.count
  {
  }

  lemma ExitState(c: Conf)
    ensures Exit(c).open == c.open && Exit(c).since == c.since && Exit(c).count == c.count && Exit(c).made == c.made
    ensures Exit(c).halt.Running? ==> Exit(c).halt == c.halt
    ensures c.halt.Running? && c.nread <= HTTP_MAX_HEADER_SIZE ==> Exit(c).halt.Running?
  {
  }

  // A value that lapses.

  /** Two runs that differ in one byte that has been called back. */
  predicate Heavier(c: Conf, d: Conf) {
    && SameState(c, d) && c.open == d.open && Volume(c.trace) == Volume(d.trace) + 1
    && (c.open.Some? ==> Volume(c.made) == Volume(d.made) + 1)
  }

  lemma HeavierOpened(c: Conf, d: Conf, mark: Option<DataKind>)
    requires Heavier(c, d)
    ensures Heavier(Opened(c, mark), Opened(d, mark))
  {
    hide Push, Volume;
    if mark.Some? {
      VolumePush(c.trace, Data(mark.value, ""));
      VolumePush(d.trace, Data(mark.value, ""));
    }
  }

  lemma HeavierActed(c: Conf, d: Conf, o: Out, b: char)
    requires Heavier(c, d)
    ensures Heavier(Acted(c, o, b), Acted(d, o, b))
  {
    hide Push, PushAll, Volume, Opened;
    var c1, d1 := c.(p := o.p, nread := if o.reset then 0 else c.nread), d.(p := o.p, nread := if o.reset then 0 else d.nread);
    HeavierOpened(c1, d1, o.mark);
    var c2, d2 := Opened(c1, o.mark), Opened(d1, o.mark);
    if o.flush.Through? {
      VolumePush(c2.trace, Data(o.flush.kind, [b]));
      VolumePush(d2.trace, Data(o.flush.kind, [b]));
    }
    VolumePushAll(Flushed(c2, o.flush, b).trace, Flushed(d2, o.flush, b).trace, o.calls);
  }

  lemma HeavierApply(c: Conf, d: Conf, o: Out, b: char)
    requires Heavier(c, d)
    ensures Heavier(Apply(c, o, b), Apply(d, o, b))
  {
    hide Push, PushAll, Volume, Acted;
    HeavierActed(c, d, o, b);
    SameApply(c, d, o, b);
    var a, e := Acted(c, o, b), Acted(d, o, b);
    if a.open.Some? {
      VolumePush(a.trace, Data(a.open.value, [b]));
      VolumePush(e.trace, Data(a.open.value, [b]));
    }
  }

  lemma {:induction false} HeavierRun(c: Conf, d: Conf, bs: string)
    requires Heavier(c, d)
    ensures Heavier(Run(c, bs), Run(d, bs))
    decreases |bs|, Rank(c.p.state)
  {
    hide Dispatch, Apply, Rank, Volume;
    if bs != [] && c.halt == Running {
      var o := Dispatch(c.p, bs[0]);
      HeavierApply(c, d, o, bs[0]);
      AgainLowersRank(c.p, bs[0]);
      ApplyKeepsState(c, o, bs[0]);
      HeavierRun(Apply(c, o, bs[0]), Apply(d, o, bs[0]), if o.ctl == Again then bs else bs[1..]);
    }
  }

  lemma HeavierDiffers(c: Conf, d: Conf)
    requires Heavier(c, d)
    ensures CalledBack(Exit(c)) != CalledBack(Exit(d))
  {
    hide Volume;
  }

  /** A cut right before a byte at which a value lapses has that byte called back, and the bytes around are not. */
  lemma LapseHeavier(c: Conf, b: char)
    requires c.halt.Running? && Unmarked(c) && LapsesAt(c, b) && LastIs(c.trace, Value)
    ensures var e, d := Run(Resume(c), [b]), Run(c, [b]);
            && e.halt.Running? && SameState(e, d) && Volume(e.trace) == Volume(d.trace) + 1 && Heavier(Resume(e), Resume(d))
  {
    hide Dispatch, Push, PushAll, Volume, EndsValue;
    ValueOut(c.p, b);
    PushNone(c.trace);
    PushEmpty(c.trace, Value);
    PushNone(Push(c.trace, Data(Value, "")));
    VolumePush(c.trace, Data(Value, [b]));
    RunOne(c, b);
    RunOne(Resume(c), b);
    var e, d := Run(Resume(c), [b]), Run(c, [b]);
    HeavierOpened(Unopened(e), Unopened(d), EntryMark(e.p.state));
  }

  lemma FeedStep(c: Conf, x: string, pieces: seq<string>)
    requires c.halt.Running? && Run(Resume(c), x).nread <= HTTP_MAX_HEADER_SIZE
    ensures Feed(c, [x] + pieces) == Feed(Run(Resume(c), x), pieces)
  {
    hide Run, Resume, Exit;
    assert ([x] + pieces)[1..] == pieces;
    FitExit(Run(Resume(c), x));
  }

  lemma LastCall(c: Conf, x: string)
    requires c.halt.Running?
    ensures Feed(c, [x]) == Exit(Run(Resume(c), x))
  {
    hide Run, Resume, Exit;
    assert [x][1..] == [];
  }

  /** The rest of a stream after two histories that differ in one byte called back. */
  lemma RestDiffers(e: Conf, d: Conf, rest: string)
    requires e.halt.Running? && SameState(e, d) && Volume(e.trace) == Volume(d.trace) + 1 && Heavier(Resume(e), Resume(d))
    ensures var tail := if rest == "" then [] else [rest];
            CalledBack(Feed(e, tail)) != CalledBack(Feed(d, tail))
  {
    hide Run, Resume, Exit, Volume;
    if rest != "" {
      LastCall(e, rest);
      LastCall(d, rest);
      HeavierRun(Resume(e), Resume(d), rest);
      HeavierDiffers(Run(Resume(e), rest), Run(Resume(d), rest));
    }
  }

  /** A stream in which a value lapses does not make the same callbacks for all cuts: of the cut around the byte
      and the cut behind it alone, one differs from the whole. */
  lemma LapseDiffers(c: Conf, bs: string) returns (pieces: seq<string>)
    requires Starts(c) && Regular(c, bs) && !NeverLapses(Resume(c), bs)
    ensures IsCut(pieces, bs) && CalledBack(Feed(c, pieces)) != CalledBack(Run(Resume(c), bs))
  {
    hide Run, Resume, Inv, Ends, MarkOk, Volume, Exit, Feed, CalledBack, LapsesAt, HeadersFit, IsCut, Heavier;
    var n :| 0 <= n < |bs| && LapsesAt(Run(Resume(c), bs[..n]), bs[n]);
    var a, b, rest := bs[..n], bs[n], bs[n + 1..];
    var tail := if rest == "" then [] else [rest];
    var d := Run(Resume(c), a);
    LapsePlace(c, a, b);
    RunKeepsInv(Resume(c), a);
    RunKeepsEnds(Resume(c), a);
    LapseParts(d, b);
    LapseHeavier(d, b);
    var e, g := Run(Resume(d), [b]), Run(d, [b]);
    assert a + [b] == bs[..n + 1] && a + [b] + rest == bs;
    RunAppend(Resume(c), a, [b]);
    PrefixFits(Resume(c), bs, n);
    PrefixFits(Resume(c), bs, n + 1);
    FeedStep(c, a, [[b]] + tail);
    FeedStep(d, [b], tail);
    FeedStep(c, a + [b], tail);
    RestDiffers(e, g, rest);
    CutsAround(a, b, rest);
    var around, behind := [a] + ([[b]] + tail), [a + [b]] + tail;
    pieces := if CalledBack(Feed(c, around)) != CalledBack(Run(Resume(c), bs)) then around else behind;
  }

  lemma LapsePlace(c: Conf, a: string, b: char)
    requires LapsesAt(Run(Resume(c), a), b)
    ensures a != ""
  {
    hide Run, Resume, LapsesAt;
    if a == "" {
      RunNothing(Resume(c));
      ResumeNeverLapses(c, b);
    }
  }

  lemma LapseParts(c: Conf, b: char)
    requires LapsesAt(c, b) && Ends(c)
    ensures c.halt.Running? && Unmarked(c) && LastIs(c.trace, Value)
  {
    hide EndsValue, Dispatch;
  }

  lemma CutsAround(a: string, b: char, rest: string)
    requires a != ""
    ensures var tail := if rest == "" then [] else [rest];
            IsCut([a] + ([[b]] + tail), a + [b] + rest) && IsCut([a + [b]] + tail, a + [b] + rest)
  {
    var tail := if rest == "" then [] else [rest];
    assert Concat(tail) == rest by {
      if rest != "" { ConcatTwo(rest, ""); }
    }
    assert ([[b]] + tail)[1..] == tail && ([a] + ([[b]] + tail))[1..] == [[b]] + tail && ([a + [b]] + tail)[1..] == tail;
    assert Concat([[b]] + tail) == [b] + rest;
    assert a + ([b] + rest) == a + [b] + rest;
  }

  /** Split invariance, exactly. Every cut of a stream with short headers leaves the state and the counts of one call;
      and every cut makes the same callbacks if and only if the stream does not fail with bytes under a mark, and no
      header value in it goes on after it has lost its mark to a bare CR. */
  lemma EveryCutAgrees(c: Conf, bs: string)
    requires Starts(c) && Regular(c, bs)
    ensures forall pieces :: IsCut(pieces, bs) ==> SameState(Feed(c, pieces), Run(Resume(c), bs))
    ensures (forall pieces :: IsCut(pieces, bs) ==> CalledBack(Feed(c, pieces)) == CalledBack(Run(Resume(c), bs)))
            <==> !Drops(Run(Resume(c), bs)) && NeverLapses(Resume(c), bs)
  {
    hide Run, Resume, Starts, Matches, Feed, Drops, CalledBack, NeverLapses, HeadersFit, IsCut;
    forall pieces | IsCut(pieces, bs)
      ensures SameState(Feed(c, pieces), Run(Resume(c), bs))
      ensures !Drops(Run(Resume(c), bs)) && NeverLapses(Resume(c), bs) ==> CalledBack(Feed(c, pieces)) == CalledBack(Run(Resume(c), bs))
    {
      StateOfCut(c, pieces, bs);
      if NeverLapses(Resume(c), bs) { CutLeavesSame(c, pieces, bs); }
    }
    if !NeverLapses(Resume(c), bs) {
      var pieces := LapseDiffers(c, bs);
    } else if Drops(Run(Resume(c), bs)) {
      CutDiffers(c, bs);
    }
  }

  lemma StateOfCut(c: Conf, pieces: seq<string>, bs: string)
    requires Starts(c) && Regular(c, bs) && IsCut(pieces, bs)
    ensures SameState(Feed(c, pieces), Run(Resume(c), bs))
  {
    hide Run, Resume, Feed, HeadersFit;
    ResumeState(c);
    CutLeavesState(c, Resume(c), pieces);
  }
}
