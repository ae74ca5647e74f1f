/** Following a run of the parser byte by byte. */
module Walk {
  import opened Options
  import opened ParserTypes
  import opened Transition
  import opened ParserRun

  /** A running configuration, the count of header bytes left open. */
  ghost predicate At(d: Conf, p: Parser, open: Option<DataKind>, trace: seq<Event>, count: nat) {
    d.halt.Running? && d.p == p && d.open == open && d.trace == trace && d.count == count
  }

  lemma StepGo(c: Conf, b: char, q: Parser)
    requires c.halt.Running? && Dispatch(c.p, b) == Go(q)
    ensures At(Run(c, [b]), q, c.open, if c.open.Some? then Push(c.trace, Data(c.open.value, [b])) else c.trace, c.count + 1)
  {
    hide Dispatch, Push;
    RunOne(c, b);
  }

  lemma StepMark(c: Conf, b: char, q: Parser, k: DataKind)
    requires c.halt.Running? && c.open.None? && Dispatch(c.p, b) == Go(q).(mark := Some(k))
    ensures At(Run(c, [b]), q, Some(k), Push(c.trace, Data(k, [b])), c.count + 1)
  {
    hide Dispatch, Push;
    RunOne(c, b);
    PushTwice(c.trace, k, "", [b]);
    assert "" + [b] == [b];
  }

  lemma StepFlush(c: Conf, b: char, q: Parser, k: DataKind)
    requires c.halt.Running? && c.open == Some(k) && Dispatch(c.p, b) == Go(q).(flush := Before(k))
    ensures At(Run(c, [b]), q, None, c.trace, c.count + 1)
  {
    hide Dispatch, Push;
    RunOne(c, b);
  }

  /** Data of no bytes: marked and delivered on the same byte. */
  lemma StepEmpty(c: Conf, b: char, q: Parser, k: DataKind)
    requires c.halt.Running? && c.open.None? && Dispatch(c.p, b) == Go(q).(mark := Some(k), flush := Before(k))
    ensures At(Run(c, [b]), q, None, Push(c.trace, Data(k, "")), c.count + 1)
  {
    hide Dispatch, Push;
    RunOne(c, b);
  }

  /** A pass that marks and delivers at most the open data, makes one callback, and leaves the byte behind. */
  lemma StepCall(c: Conf, b: char, q: Parser, e: Event, reset: bool)
    requires c.halt.Running? && c.open.None? && Dispatch(c.p, b) == Out(q, None, Keep, [e], reset, Next)
    ensures At(Run(c, [b]), q, None, Push(c.trace, e), c.count + 1) && (reset ==> Run(c, [b]).nread <= 1)
  {
    hide Dispatch, Push;
    RunOne(c, b);
    assert PushAll(c.trace, [e]) == PushAll(Push(c.trace, e), []);
  }

  /** A pass that makes at most one callback and looks at the byte again. */
  lemma StepRedo(c: Conf, bs: string, q: Parser, calls: seq<Event>) returns (d: Conf)
    requires c.halt.Running? && c.open.None? && bs != "" && |calls| <= 1
    requires Dispatch(c.p, bs[0]) == Redo(q).(calls := calls)
    ensures Run(c, bs) == Run(d, bs)
    ensures At(d, q, None, if calls == [] then c.trace else Push(c.trace, calls[0]), c.count)
  {
    hide Dispatch, Push;
    RunStep(c, bs);
    d := Apply(c, Dispatch(c.p, bs[0]), bs[0]);
    if calls != [] {
      assert calls == [calls[0]];
      assert PushAll(c.trace, calls) == PushAll(Push(c.trace, calls[0]), []);
    } else {
      assert PushAll(c.trace, calls) == c.trace;
    }
  }

  /** A pass that delivers the open data and looks at the byte again. */
  lemma StepRedoFlush(c: Conf, bs: string, q: Parser, k: DataKind) returns (d: Conf)
    requires c.halt.Running? && c.open == Some(k) && bs != "" && Dispatch(c.p, bs[0]) == Redo(q).(flush := Before(k))
    ensures Run(c, bs) == Run(d, bs) && At(d, q, None, c.trace, c.count)
  {
    hide Dispatch, Push;
    RunStep(c, bs);
    d := Apply(c, Dispatch(c.p, bs[0]), bs[0]);
  }

  /** Bytes that leave the parser as it is. */
  lemma {:induction false} IdleOrEmpty(c: Conf, s: string)
    requires c.halt.Running? && c.open.None? && Idle(c.p, s)
    ensures At(Run(c, s), c.p, None, c.trace, c.count + |s|)
  {
    hide Dispatch, Push, Idle;
    assert s + "" == s;
    RunIdle(c, s, "");
  }
}
