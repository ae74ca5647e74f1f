/** Sending on one session: the outgoing queue with its single write in flight, and closing that waits for the
    queue. The protocol on top is free in what it answers; the handlers of a session run one at a time. */
module SendPipeline {
  import opened Options
  import opened Texts

  /** What a protocol returns from its callbacks. */
  datatype Feedback = Finished | Continue | Close | More

  /** What a protocol does in a callback: the buffers it sends, and its feedback. */
  datatype Answer = Answer(sends: seq<string>, feedback: Feedback)

  /** `outgoing` to `posted` are the session: the queue, the write in flight, the mark for closing, whether it is
      finalised, whether a read is pending, and the attempts to close that are posted. `aborted` reads of a socket
      that is gone are yet to report. The rest is history: of this connection, what was handed to `send`, what went
      out, whether a write has failed and whether closing was asked for; and whether the queue last became empty
      under the mark, by a write that broke or one whose handler has yet to clear the mark. */
  datatype Pipe = Pipe(
    outgoing: seq<string>, writing: Option<string>, shutdown: bool, finalised: bool, reading: bool, posted: nat, aborted: nat,
    sent: seq<string>, wire: string, failed: bool, requested: bool, broken: bool)

  /** A session before its first use. */
  function Init(): Pipe {
    Pipe([], None, false, true, false, 0, 0, [], "", false, false, false)
  }

  function Sent(p: Pipe, b: string): Pipe {
    p.(outgoing := p.outgoing + [b], writing := if p.outgoing == [] then Some(b) else p.writing, sent := p.sent + [b])
  }

  function SentAll(p: Pipe, bs: seq<string>): Pipe
    decreases |bs|
  {
    if bs == [] then p else SentAll(Sent(p, bs[0]), bs[1..])
  }

  /** `close_once`: wait for the queue, or finalise unless that was done. The socket goes, and a pending read with it. */
  function Closed(p: Pipe): Pipe {
    if p.outgoing != [] then p.(shutdown := true, requested := true)
    else if p.finalised then p.(requested := true)
    else p.(finalised := true, requested := true, reading := false, aborted := if p.reading then p.aborted + 1 else p.aborted)
  }

  /** `async_close`; with the context already stopped, closing is also tried at once. */
  function ClosePosted(p: Pipe, stopped: bool): Pipe {
    var q := p.(posted := p.posted + 1, requested := true);
    if stopped then Closed(q) else q
  }

  /** `async_receive`; with the context already stopped, the session is closed. */
  function Received(p: Pipe, stopped: bool): Pipe {
    var q := p.(reading := true);
    if stopped then Closed(q) else q
  }

  function Answered(p: Pipe, a: Answer, stopped: bool): Pipe {
    var q := SentAll(p, a.sends);
    match a.feedback
    case Continue => Received(q, stopped)
    case Close => ClosePosted(q, stopped)
    case Finished => q
    case More => q
  }

  datatype Write = Complete | Broken(n: nat)

  /** The queue has run empty: the protocol is told, and a closing that was put off is posted. */
  function Emptied(p: Pipe, a: Answer, stopped: bool): Pipe {
    var r := Answered(p, a, stopped);
    if r.shutdown then ClosePosted(r.(shutdown := false, broken := false), stopped) else r
  }

  /** The write in flight is over; `a` is the answer of the protocol if the queue has run empty. */
  function Written(p: Pipe, w: Write, a: Answer, stopped: bool): Pipe
    requires p.outgoing != [] && p.writing.Some? && (w.Broken? ==> w.n <= |p.writing.value|)
  {
    if w.Broken? then
      ClosePosted(p.(outgoing := [], writing := None, failed := true, broken := p.shutdown, wire := p.wire + p.writing.value[..w.n]), stopped)
    else
      var q := p.(outgoing := p.outgoing[1..], wire := p.wire + p.writing.value);
      if q.outgoing != [] then q.(writing := Some(q.outgoing[0]))
      else Emptied(q.(writing := None, broken := q.shutdown), a, stopped)
  }

  datatype Action =
    | ReadDone(error: bool, answer: Answer)
    | AbortedRead
    | WriteDone(write: Write, answer: Answer)
    | RunPosted
    | Reuse

  /** A handler runs when the operation it belongs to is over; a finalised session can be used for the next
      connection. A protocol does not answer `Finished` to the end of its output. */
  predicate Enabled(p: Pipe, a: Action) {
    match a
    case ReadDone(_, _) => p.reading
    case AbortedRead => p.aborted > 0
    case WriteDone(w, x) => p.outgoing != [] && p.writing.Some? && (w.Broken? ==> w.n <= |p.writing.value|) && !x.feedback.Finished?
    case RunPosted => p.posted > 0
    case Reuse => p.finalised
  }

  function Next(p: Pipe, a: Action, stopped: bool): Pipe
    requires Enabled(p, a)
  {
    match a
    case ReadDone(error, x) =>
      if error then ClosePosted(p.(reading := false), stopped) else Answered(p.(reading := false), x, stopped)
    case AbortedRead => ClosePosted(p.(aborted := p.aborted - 1), stopped)
    case WriteDone(w, x) => Written(p, w, x, stopped)
    case RunPosted => Closed(p.(posted := p.posted - 1))
    case Reuse => Received(p.(finalised := false, sent := [], wire := "", failed := false, requested := false), stopped)
  }

  /** A write is in flight exactly when the queue is not empty, and it is the front of the queue; until a write fails,
      bytes have left in the order of `send`; a finalised session has neither a write nor a read; closing, once asked
      for, is done, or posted, or marked for the end of the write in flight; and with the queue empty the mark is set
      exactly if it was left by a broken write. */
  predicate Inv(p: Pipe) {
    && (p.writing.Some? <==> p.outgoing != []) && (p.writing.Some? ==> p.writing.value == p.outgoing[0])
    && (p.finalised ==> p.outgoing == [] && !p.reading)
    && (!p.failed ==> Concat(p.sent) == p.wire + Concat(p.outgoing))
    && (p.requested && !p.finalised ==> p.posted > 0 || (p.shutdown && p.writing.Some?))
    && (p.outgoing == [] ==> (p.shutdown <==> p.broken))
  }

  /** The reads that have yet to report: the pending one, and those of a socket that is gone. */
  function Outstanding(p: Pipe): nat {
    p.aborted + if p.reading then 1 else 0
  }

  /** However closing is asked for, it is recorded; it loses no read, and it throws away nothing that was to be sent; an
      attempt on a session with nothing to send finalises it, and any other leaves the mark. */
  lemma ClosingIsRecorded(p: Pipe, stopped: bool)
    ensures var q := Closed(p);
            && q.requested && Outstanding(q) == Outstanding(p) && q.posted == p.posted
            && q.outgoing == p.outgoing && q.writing == p.writing && q.sent == p.sent && q.wire == p.wire
            && (p.outgoing == [] ==> q.finalised) && (p.outgoing != [] ==> q.shutdown && q.finalised == p.finalised && q.reading == p.reading)
    ensures var q := ClosePosted(p, stopped);
            && q.requested && Outstanding(q) == Outstanding(p) && q.posted == p.posted + 1
            && q.outgoing == p.outgoing && q.writing == p.writing && q.sent == p.sent && q.wire == p.wire
            && (!stopped ==> q.finalised == p.finalised && q.shutdown == p.shutdown && q.reading == p.reading)
  {
  }

  /** A read that is over is no longer outstanding; but for a read that is started, no handler changes their number. */
  lemma ReadsAreCounted(p: Pipe, a: Action, stopped: bool)
    requires Enabled(p, a) && !stopped
    requires a.ReadDone? && !a.error ==> !a.answer.feedback.Continue?
    requires a.WriteDone? && a.write.Complete? && |p.outgoing| == 1 ==> !a.answer.feedback.Continue?
    ensures !a.Reuse? ==> Outstanding(Next(p, a, stopped)) == Outstanding(p) - if a.ReadDone? || a.AbortedRead? then 1 else 0
    ensures a.Reuse? && !p.reading ==> Outstanding(Next(p, a, stopped)) == Outstanding(p) + 1
  {
    hide SentAll, Answered, ClosePosted, Closed;
    ClosingIsRecorded(p, stopped);
    match a
    case ReadDone(error, x) =>
      ClosingIsRecorded(p.(reading := false), stopped);
      if !error { AnswerKeepsReads(p.(reading := false), x); }
    case AbortedRead => ClosingIsRecorded(p.(aborted := p.aborted - 1), stopped);
    case WriteDone(w, x) => WriteKeepsReads(p, w, x);
    case RunPosted => ClosingIsRecorded(p.(posted := p.posted - 1), stopped);
    case Reuse =>
  }

  lemma AnswerKeepsReads(p: Pipe, x: Answer)
    requires !x.feedback.Continue?
    ensures Outstanding(Answered(p, x, false)) == Outstanding(p)
  {
    hide ClosePosted;
    SendsKeepReads(p, x.sends);
    ClosingIsRecorded(SentAll(p, x.sends), false);
  }

  lemma WriteKeepsReads(p: Pipe, w: Write, x: Answer)
    requires Enabled(p, WriteDone(w, x)) && (w.Complete? && |p.outgoing| == 1 ==> !x.feedback.Continue?)
    ensures Outstanding(Written(p, w, x, false)) == Outstanding(p)
  {
    hide ClosePosted, Answered;
    if w.Broken? {
      ClosingIsRecorded(p.(outgoing := [], writing := None, failed := true, broken := p.shutdown, wire := p.wire + p.writing.value[..w.n]), false);
    } else if |p.outgoing| == 1 {
      var q := p.(outgoing := p.outgoing[1..], writing := None, broken := p.shutdown, wire := p.wire + p.writing.value);
      AnswerKeepsReads(q, x);
      var r := Answered(q, x, false);
      ClosingIsRecorded(r.(shutdown := false, broken := false), false);
    }
  }

  lemma {:induction false} SendsKeepReads(p: Pipe, bs: seq<string>)
    ensures SentAll(p, bs).reading == p.reading && SentAll(p, bs).aborted == p.aborted
    decreases |bs|
  {
    if bs != [] { SendsKeepReads(Sent(p, bs[0]), bs[1..]); }
  }

  /** What `Sent` does to the parts of the invariant that speak of bytes. */
  lemma SentBytes(p: Pipe, b: string)
    ensures Concat(Sent(p, b).sent) == Concat(p.sent) + b && Concat(Sent(p, b).outgoing) == Concat(p.outgoing) + b
  {
    ConcatSnoc(p.sent, b);
    ConcatSnoc(p.outgoing, b);
  }

  /** The invariant but for what `pending` says of a closing that was asked for. */
  predicate InvBut(p: Pipe, pending: bool) {
    Inv(if pending then p.(requested := false) else p)
  }

  lemma SentKeeps(p: Pipe, b: string, pending: bool)
    requires InvBut(p, pending) && !p.finalised
    ensures InvBut(Sent(p, b), pending)
  {
    hide Concat;
    SentBytes(p, b);
  }

  lemma {:induction false} SentAllKeeps(p: Pipe, bs: seq<string>, pending: bool)
    requires InvBut(p, pending) && !p.finalised
    ensures InvBut(SentAll(p, bs), pending)
    ensures var q := SentAll(p, bs); q.shutdown == p.shutdown && !q.finalised && q.posted == p.posted && q.requested == p.requested
    decreases |bs|
  {
    hide Concat, InvBut;
    if bs != [] {
      SentKeeps(p, bs[0], pending);
      SentAllKeeps(Sent(p, bs[0]), bs[1..], pending);
    }
  }

  lemma ClosedKeeps(p: Pipe)
    requires InvBut(p, true)
    ensures Inv(Closed(p))
  {
    hide Concat;
  }

  lemma PostedKeeps(p: Pipe, stopped: bool)
    requires InvBut(p, true)
    ensures Inv(ClosePosted(p, stopped))
  {
    hide Concat;
    ClosedKeeps(p.(posted := p.posted + 1, requested := true));
  }

  lemma ReceivedKeeps(p: Pipe, stopped: bool, pending: bool)
    requires InvBut(p, pending) && !p.finalised
    ensures InvBut(Received(p, stopped), pending)
  {
    hide Concat;
    if stopped { ClosedKeeps(p.(reading := true)); }
  }

  lemma AnsweredKeeps(p: Pipe, a: Answer, stopped: bool, pending: bool)
    requires InvBut(p, pending) && !p.finalised
    ensures InvBut(Answered(p, a, stopped), pending)
  {
    hide Concat, Inv, Closed;
    SentAllKeeps(p, a.sends, pending);
    var q := SentAll(p, a.sends);
    match a.feedback
    case Continue => ReceivedKeeps(q, stopped, pending);
    case Close => Unpend(q, pending); PostedKeeps(q, stopped); Pend(ClosePosted(q, stopped));
    case Finished =>
    case More =>
  }

  lemma Unpend(p: Pipe, pending: bool)
    requires InvBut(p, pending)
    ensures InvBut(p, true)
  {
    hide Concat;
  }

  lemma Pend(p: Pipe)
    requires Inv(p)
    ensures InvBut(p, true) && InvBut(p, false)
  {
    hide Concat;
  }

  lemma MarkStays(p: Pipe, a: Answer, stopped: bool)
    requires InvBut(p, true) && !p.finalised && p.shutdown
    ensures Answered(p, a, stopped).shutdown
  {
    hide Concat, SentAll;
    SentAllKeeps(p, a.sends, true);
  }

  /** The state in which a protocol is told that its output is out. */
  predicate Drained(p: Pipe) {
    p.outgoing == [] && !p.finalised && InvBut(p, true) && (p.requested ==> p.posted > 0 || p.shutdown)
  }

  lemma ClearedKeeps(p: Pipe)
    requires InvBut(p, true)
    ensures InvBut(p.(shutdown := false, broken := false), true)
  {
    hide Concat;
  }

  lemma EmptiedKeeps(p: Pipe, a: Answer, stopped: bool)
    requires Drained(p)
    ensures Inv(Emptied(p, a, stopped))
  {
    hide Concat, Answered, ClosePosted;
    var r := Answered(p, a, stopped);
    AnsweredKeeps(p, a, stopped, true);
    if r.shutdown {
      ClearedKeeps(r);
      PostedKeeps(r.(shutdown := false, broken := false), stopped);
    } else {
      if p.shutdown { MarkStays(p, a, stopped); }
      AnsweredKeeps(p, a, stopped, false);
    }
  }

  lemma PoppedBytes(p: Pipe)
    requires Inv(p) && p.outgoing != []
    ensures !p.failed ==> Concat(p.sent) == p.wire + p.writing.value + Concat(p.outgoing[1..])
    ensures |p.outgoing| == 1 ==> p.outgoing[1..] == [] && (!p.failed ==> Concat(p.sent) == p.wire + p.writing.value)
  {
    ConcatTail(p.outgoing);
    ConcatNone();
    hide Concat;
    if !p.failed {
      assert Concat(p.sent) == p.wire + p.writing.value + Concat(p.outgoing[1..]);
    }
  }

  lemma CompleteKeeps(p: Pipe, a: Answer, stopped: bool)
    requires Inv(p) && Enabled(p, WriteDone(Complete, a))
    ensures Inv(Written(p, Complete, a, stopped))
    ensures |p.outgoing| == 1 ==> Drained(p.(outgoing := [], writing := None, broken := p.shutdown, wire := p.wire + p.writing.value))
  {
    hide Concat, Emptied;
    PoppedBytes(p);
    var q := p.(outgoing := p.outgoing[1..], wire := p.wire + p.writing.value);
    if q.outgoing == [] {
      ConcatNone();
      assert q.wire + "" == q.wire;
      EmptiedKeeps(q.(writing := None, broken := q.shutdown), a, stopped);
    }
  }

  lemma BrokenKeeps(p: Pipe, n: nat, a: Answer, stopped: bool)
    requires Inv(p) && Enabled(p, WriteDone(Broken(n), a))
    ensures Inv(Written(p, Broken(n), a, stopped))
  {
    hide Concat;
    PostedKeeps(p.(outgoing := [], writing := None, failed := true, broken := p.shutdown, wire := p.wire + p.writing.value[..n]), stopped);
  }

  lemma ReadKeeps(p: Pipe, error: bool, a: Answer, stopped: bool)
    requires Inv(p) && p.reading
    ensures Inv(Next(p, ReadDone(error, a), stopped))
  {
    hide Concat, Answered, ClosePosted;
    var q := p.(reading := false);
    assert Inv(q) && !q.finalised;
    Pend(q);
    if error { PostedKeeps(q, stopped); } else { AnsweredKeeps(q, a, stopped, false); }
  }

  lemma ReuseKeeps(p: Pipe, stopped: bool)
    requires Inv(p) && p.finalised
    ensures Inv(Next(p, Reuse, stopped))
  {
    ConcatNone();
    hide Concat;
    ReceivedKeeps(p.(finalised := false, sent := [], wire := "", failed := false, requested := false), stopped, false);
  }

  lemma NextKeepsInv(p: Pipe, a: Action, stopped: bool)
    requires Inv(p) && Enabled(p, a)
    ensures Inv(Next(p, a, stopped))
  {
    hide Closed, Written, Concat;
    match a
    case ReadDone(error, x) => ReadKeeps(p, error, x, stopped);
    case AbortedRead => PostedKeeps(p.(aborted := p.aborted - 1), stopped);
    case WriteDone(w, x) => if w.Broken? { BrokenKeeps(p, w.n, x, stopped); } else { CompleteKeeps(p, x, stopped); }
    case RunPosted => ClosedKeeps(p.(posted := p.posted - 1));
    case Reuse => ReuseKeeps(p, stopped);
  }

  // Whole runs. With each action comes whether the context is stopped.

  datatype Event = Event(action: Action, stopped: bool)

  function Reached(es: seq<Event>): Option<Pipe> {
    if es == [] then Some(Init())
    else
      var n := |es| - 1;
      var p := Reached(es[..n]);
      if p.Some? && Enabled(p.value, es[n].action) then Some(Next(p.value, es[n].action, es[n].stopped)) else None
  }

  lemma {:induction false} RunKeepsInv(es: seq<Event>)
    requires Reached(es).Some?
    ensures Inv(Reached(es).value)
  {
    hide Next, Enabled;
    if es == [] {
      ConcatNone();
    } else {
      hide Inv;
      var n := |es| - 1;
      RunKeepsInv(es[..n]);
      NextKeepsInv(Reached(es[..n]).value, es[n].action, es[n].stopped);
    }
  }

  /** The send pipeline of any protocol, over every run and every number of connections: a write is in flight if and
      only if the queue is not empty; until a write fails, what is on the wire is a prefix of what was sent, in that
      order; a finalised session has nothing in flight; and a closing that was asked for is done, posted, or marked
      while a write is in flight. */
  lemma PipelineIsSafe(es: seq<Event>)
    requires Reached(es).Some?
    ensures var p := Reached(es).value;
            && (p.writing.Some? <==> p.outgoing != [])
            && (!p.failed ==> p.wire <= Concat(p.sent))
            && (p.finalised ==> p.writing.None? && !p.reading)
            && (p.requested ==> p.finalised || p.posted > 0 || (p.shutdown && p.writing.Some?))
  {
    hide Reached, Concat;
    RunKeepsInv(es);
  }

  lemma {:induction false} SentAllBroken(p: Pipe, bs: seq<string>)
    ensures SentAll(p, bs).broken == p.broken
    decreases |bs|
  {
    if bs != [] { SentAllBroken(Sent(p, bs[0]), bs[1..]); }
  }

  /** What `broken` records: a handler leaves it set exactly if its write broke under the mark, when the queue becomes
      empty, and as it was otherwise. */
  lemma BrokenMeans(p: Pipe, w: Write, a: Answer, stopped: bool)
    requires Inv(p) && Enabled(p, WriteDone(w, a)) && (w.Broken? || |p.outgoing| == 1)
    ensures Written(p, w, a, stopped).broken <==> w.Broken? && p.shutdown
  {
    hide Concat, Answered, ClosePosted;
    ClosePostedBroken(p.(outgoing := [], writing := None, failed := true, broken := p.shutdown, wire := p.wire + if w.Broken? then p.writing.value[..w.n] else ""), stopped);
    if w.Complete? {
      CompleteKeeps(p, a, stopped);
      assert p.outgoing[1..] == [];
      var q := p.(outgoing := [], writing := None, broken := p.shutdown, wire := p.wire + p.writing.value);
      AnsweredBroken(q, a, stopped);
      if p.shutdown { MarkStays(q, a, stopped); }
      ClosePostedBroken(Answered(q, a, stopped).(shutdown := false, broken := false), stopped);
    }
  }

  lemma AnsweredBroken(p: Pipe, a: Answer, stopped: bool)
    ensures Answered(p, a, stopped).broken == p.broken
  {
    hide SentAll, ClosePosted, Received;
    SentAllBroken(p, a.sends);
    ClosePostedBroken(SentAll(p, a.sends), stopped);
  }

  lemma ClosePostedBroken(p: Pipe, stopped: bool)
    ensures ClosePosted(p, stopped).broken == p.broken && Received(p, stopped).broken == p.broken
  {
  }

  /** The mark for closing, exactly: whenever the queue is empty, and so in every finalised session and at the start of
      the next connection, it is set if and only if the queue last became empty by a write that broke under it. */
  lemma MarkExact(es: seq<Event>)
    requires Reached(es).Some? && Reached(es).value.outgoing == []
    ensures Reached(es).value.shutdown <==> Reached(es).value.broken
  {
    hide Reached, Concat;
    RunKeepsInv(es);
  }

  /** A session is not finalised by a step that leaves a write in flight, nor while one is in flight. */
  lemma FinalisedIdle(p: Pipe, a: Action, stopped: bool)
    requires Inv(p) && Enabled(p, a) && !p.finalised && Next(p, a, stopped).finalised
    ensures Next(p, a, stopped).writing.None?
    ensures a.WriteDone? || p.writing.None?
  {
    hide Concat, Next;
    NextKeepsInv(p, a, stopped);
    FinalisedBy(p, a, stopped);
  }

  lemma {:induction false} SentAllGrows(p: Pipe, bs: seq<string>)
    ensures p.outgoing <= SentAll(p, bs).outgoing && SentAll(p, bs).finalised == p.finalised
    decreases |bs|
  {
    if bs != [] { SentAllGrows(Sent(p, bs[0]), bs[1..]); }
  }

  lemma FinalisedBy(p: Pipe, a: Action, stopped: bool)
    requires Inv(p) && Enabled(p, a) && !p.finalised && Next(p, a, stopped).finalised
    ensures a.WriteDone? || p.outgoing == []
  {
    hide Concat;
    if a.ReadDone? { SentAllGrows(p.(reading := false), a.answer.sends); }
  }

  /** A finalised session with the mark set. */
  const LEFT_MARKED: Pipe := Pipe([], None, true, true, false, 0, 0, ["a"], "", true, true, true)

  /** A protocol that goes on reading while it sends: its peer closes, which sets the mark, and the write breaks. */
  lemma MarkMayStay() returns (es: seq<Event>)
    ensures Reached(es) == Some(LEFT_MARKED) && forall e <- es :: !e.stopped
  {
    hide Reached;
    var on := Answer([], Continue);
    var c1 := Init().(finalised := false, reading := true);
    es := [];
    Start();
    es := Step(es, Event(Reuse, false), c1);
    SendOne(c1.(reading := false), "a");
    var c2 := c1.(outgoing := ["a"], writing := Some("a"), sent := ["a"]);
    es := Step(es, Event(ReadDone(false, Answer(["a"], Continue)), false), c2);
    var c3 := c2.(reading := false, posted := 1, requested := true);
    es := Step(es, Event(ReadDone(true, on), false), c3);
    var c4 := c3.(posted := 0, shutdown := true);
    es := Step(es, Event(RunPosted, false), c4);
    var c5 := c4.(outgoing := [], writing := None, failed := true, broken := true, posted := 1);
    assert "a"[..0] == "" && "" + "" == "";
    es := Step(es, Event(WriteDone(Broken(0), on), false), c5);
    es := Step(es, Event(RunPosted, false), c5.(posted := 0, finalised := true));
  }

  /** The next connection is closed after its first output, although nothing in it has asked for that. */
  lemma MarkReachesNextUse(es: seq<Event>) returns (more: seq<Event>)
    requires Reached(es) == Some(LEFT_MARKED) && forall e <- es :: !e.stopped
    ensures Reached(more).Some? && es <= more && forall e <- more :: !e.stopped
    ensures var p := Reached(more).value; !p.finalised && p.reading && p.requested && p.posted == 1
  {
    hide Reached;
    var d1 := LEFT_MARKED.(finalised := false, reading := true, sent := [], wire := "", failed := false, requested := false);
    more := Step(es, Event(Reuse, false), d1);
    SendOne(d1.(reading := false), "b");
    var d2 := d1.(reading := false, outgoing := ["b"], writing := Some("b"), sent := ["b"]);
    more := Step(more, Event(ReadDone(false, Answer(["b"], Finished)), false), d2);
    assert ["b"][1..] == [] && "" + "b" == "b";
    var d3 := d2.(outgoing := [], writing := None, wire := "b", broken := false, reading := true, shutdown := false, posted := 1, requested := true);
    more := Step(more, Event(WriteDone(Complete, Answer([], Continue)), false), d3);
  }

  lemma Start()
    ensures Reached([]) == Some(Init())
  {
  }

  lemma SendOne(p: Pipe, b: string)
    ensures SentAll(p, [b]) == Sent(p, b)
  {
    assert [b][1..] == [];
    assert SentAll(p, [b]) == SentAll(Sent(p, b), []);
  }

  lemma Step(es: seq<Event>, e: Event, q: Pipe) returns (more: seq<Event>)
    requires Reached(es).Some? && Enabled(Reached(es).value, e.action) && Next(Reached(es).value, e.action, e.stopped) == q
    requires !e.stopped && forall x <- es :: !x.stopped
    ensures more == es + [e] && Reached(more) == Some(q) && forall x <- more :: !x.stopped
  {
    more := es + [e];
    assert more[..|es|] == es;
  }
}
