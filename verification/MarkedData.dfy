/** The bytes under a mark: how many they are, and how two runs compare of which one has been cut. */
module MarkedData {
  import opened Options
  import opened ParserTypes
  import opened Transition
  import opened ParserRun
  import opened ParserInvariant
  import opened Execute

  function BytesOf(e: Event): nat {
    if e.Data? then |e.bytes| else 0
  }

  /** The number of bytes of data in a trace. */
  function Volume(t: seq<Event>): nat {
    if t == [] then 0 else Volume(t[..|t| - 1]) + BytesOf(t[|t| - 1])
  }

  lemma VolumePush(t: seq<Event>, e: Event)
    ensures Volume(Push(t, e)) == Volume(t) + BytesOf(e)
  {
    var u := Push(t, e);
    if |u| == |t| {
      assert u[..|u| - 1] == t[..|t| - 1];
    } else {
      assert u[..|u| - 1] == t;
    }
  }

  /** A mark covers the bytes since it was set, and they are in the trace but not called back. */
  predicate MarkOk(c: Conf) {
    && (c.open.None? ==> c.made == [] && c.since == 0)
    && (c.open.Some? ==> c.since <= c.count && Volume(c.trace) == Volume(c.made) + (c.count - c.since))
  }

  /** At least one byte is under the mark. */
  predicate Grown(c: Conf) {
    c.open.Some? ==> c.since < c.count
  }

  lemma OpenedMark(c: Conf, mark: Option<DataKind>)
    requires MarkOk(c)
    ensures MarkOk(Opened(c, mark))
  {
    if mark.Some? { VolumePush(c.trace, Data(mark.value, "")); }
  }

  lemma ActedMark(c: Conf, o: Out, b: char)
    requires MarkOk(c) && Compatible(c.open, o)
    ensures MarkOk(Acted(c, o, b)) && Acted(c, o, b).count == c.count
  {
    hide Push, PushAll, Volume;
    var d := c.(p := o.p, nread := if o.reset then 0 else c.nread);
    OpenedMark(d, o.mark);
    var e := Flushed(Opened(d, o.mark), o.flush, b);
    assert MarkOk(e);
    if e.open.Some? { PushNone(e.trace); }
  }

  lemma ApplyMark(c: Conf, o: Out, b: char)
    requires MarkOk(c) && Compatible(c.open, o)
    ensures MarkOk(Apply(c, o, b)) && (o.ctl.Next? ==> Grown(Apply(c, o, b)))
  {
    hide Push, PushAll, Volume, Acted;
    var a := Acted(c, o, b);
    ActedMark(c, o, b);
    ActedParts(c, o, b);
    if a.open.Some? { VolumePush(a.trace, Data(a.open.value, [b])); }
  }

  lemma {:induction false} RunMark(c: Conf, bs: string)
    requires Inv(c) && MarkOk(c)
    ensures MarkOk(Run(c, bs))
    ensures bs != "" && Run(c, bs).halt.Running? ==> Grown(Run(c, bs))
    decreases |bs|, Rank(c.p.state)
  {
    hide Dispatch, Apply, Inv, MarkOk, Rank, Grown, Compatible;
    if bs != [] && c.halt == Running {
      var b := bs[0];
      var o := Dispatch(c.p, b);
      InvCompatible(c, b);
      ApplyMark(c, o, b);
      ApplyKeepsInv(c, b);
      AgainLowersRank(c.p, b);
      ApplyKeepsState(c, o, b);
      var rest := if o.ctl == Again then bs else bs[1..];
      RunMark(Apply(c, o, b), rest);
      if rest == "" {
        RunNothing(Apply(c, o, b));
        HaltsUnlessNext(c, o, b);
      }
    }
  }

  lemma HaltsUnlessNext(c: Conf, o: Out, b: char)
    ensures o.ctl.Stop? || o.ctl.Fail? ==> !Apply(c, o, b).halt.Running?
  {
    hide Push, PushAll;
  }

  lemma InvCompatible(c: Conf, b: char)
    requires Inv(c) && c.halt.Running?
    ensures Compatible(c.open, Dispatch(c.p, b))
  {
    hide Dispatch, Good;
    StepOkParts(c.p, c.open, b);
  }

  // Two runs, of which the first has been cut where the second has not.

  /** All but the mark's beginning is the same, and the mark of the first began no earlier. */
  predicate Cut(c: Conf, d: Conf) {
    && c.(made := d.made, since := d.since) == d
    && (c.open.None? ==> c == d)
    && (c.open.Some? ==>
          && d.since <= c.since && Volume(c.made) + d.since == Volume(d.made) + c.since
          && (c.since == d.since ==> c.made == d.made))
  }

  lemma CutActed(c: Conf, d: Conf, o: Out, b: char)
    requires Cut(c, d)
    ensures Cut(Acted(c, o, b), Acted(d, o, b))
  {
    hide Push, PushAll, Volume;
    var c1, d1 := c.(p := o.p, nread := if o.reset then 0 else c.nread), d.(p := o.p, nread := if o.reset then 0 else d.nread);
    assert Cut(Opened(c1, o.mark), Opened(d1, o.mark));
    assert Cut(Flushed(Opened(c1, o.mark), o.flush, b), Flushed(Opened(d1, o.mark), o.flush, b));
  }

  lemma CutApply(c: Conf, d: Conf, o: Out, b: char)
    requires Cut(c, d)
    ensures Cut(Apply(c, o, b), Apply(d, o, b))
  {
    hide Push, PushAll, Volume, Acted;
    CutActed(c, d, o, b);
    assert Acted(c, o, b).halt == c.halt && Acted(d, o, b).halt == d.halt by { ActedParts(c, o, b); ActedParts(d, o, b); }
  }

  lemma {:induction false} CutRun(c: Conf, d: Conf, bs: string)
    requires Cut(c, d)
    ensures Cut(Run(c, bs), Run(d, bs))
    decreases |bs|, Rank(c.p.state)
  {
    hide Dispatch, Apply, Rank, Volume;
    if bs != [] && c.halt == Running {
      var o := Dispatch(c.p, bs[0]);
      CutApply(c, d, o, bs[0]);
      AgainLowersRank(c.p, bs[0]);
      ApplyKeepsState(c, o, bs[0]);
      CutRun(Apply(c, o, bs[0]), Apply(d, o, bs[0]), if o.ctl == Again then bs else bs[1..]);
    }
  }

  lemma CutTwice(c: Conf, d: Conf, e: Conf)
    requires Cut(c, d) && Cut(d, e)
    ensures Cut(c, e)
  {
    hide Volume;
  }

  lemma CutExit(c: Conf, d: Conf)
    requires Cut(c, d)
    ensures Cut(Exit(c), Exit(d))
  {
    hide Volume;
  }

  /** The marks of a call are set in that call. */
  lemma {:induction false} MarkIsLater(c: Conf, bs: string, n: nat)
    requires n <= c.count && (c.open.Some? ==> n <= c.since)
    ensures Run(c, bs).open.Some? ==> n <= Run(c, bs).since
    decreases |bs|, Rank(c.p.state)
  {
    hide Dispatch, Apply, Rank;
    if bs != [] && c.halt == Running {
      var o := Dispatch(c.p, bs[0]);
      ApplyIsLater(c, o, bs[0], n);
      AgainLowersRank(c.p, bs[0]);
      ApplyKeepsState(c, o, bs[0]);
      MarkIsLater(Apply(c, o, bs[0]), if o.ctl == Again then bs else bs[1..], n);
    }
  }

  lemma ApplyIsLater(c: Conf, o: Out, b: char, n: nat)
    requires n <= c.count && (c.open.Some? ==> n <= c.since)
    ensures var d := Apply(c, o, b); n <= d.count && (d.open.Some? ==> n <= d.since)
  {
    hide Push, PushAll;
  }
}
