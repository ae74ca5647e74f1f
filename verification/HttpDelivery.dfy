/** The HTTP service on top of a session: one response per request, whose download is sent piece by piece. */
module HttpDelivery {
  import opened Options
  import opened Texts
  import opened SendPipeline

  const SEND_BUFFER_SIZE: nat := 65536

  /** `responded` is whether the response to the current request has been handed to `send`, and `left` what the program
      has yet to download. History: of the download of this response, `asked` in all, `given` bytes were handed to
      `send` after the `base` bytes up to its header. */
  datatype Http = Http(pipe: Pipe, responded: bool, left: nat, asked: nat, given: nat, base: nat)

  /** What a read brings: nothing to act upon yet, something to refuse, or the end of a request. */
  datatype Input = Partial | Refused | Whole(header: string, size: nat)

  datatype Action =
    | ReadFails
    | Read(input: Input)
    | ReadAborted
    | WriteOver(write: Write, keepAlive: bool)
    | ClosePost
    | NextConnection

  predicate Enabled(h: Http, a: Action) {
    match a
    case ReadFails => h.pipe.reading
    case Read(_) => h.pipe.reading
    case ReadAborted => h.pipe.aborted > 0
    case WriteOver(w, _) => h.pipe.outgoing != [] && h.pipe.writing.Some? && (w.Broken? ==> w.n <= |h.pipe.writing.value|)
    case ClosePost => h.pipe.posted > 0
    case NextConnection => h.pipe.finalised
  }

  function Piece(left: nat): nat {
    if SEND_BUFFER_SIZE > left then left else SEND_BUFFER_SIZE
  }

  /** `on_sent`: the next piece, from the send buffer `d`; or the next request; or the end. */
  function OnSent(h: Http, d: string, keepAlive: bool): (Http, Answer)
    requires |d| >= SEND_BUFFER_SIZE
  {
    if h.left > 0 then
      var m := Piece(h.left);
      (h.(left := h.left - m, given := h.given + m), Answer([d[..m]], More))
    else if keepAlive then (h.(responded := false), Answer([], Continue))
    else (h, Answer([], Close))
  }

  /** The service does not look at the session. */
  lemma OnSentPipe(h: Http, p: Pipe, d: string, keepAlive: bool)
    requires |d| >= SEND_BUFFER_SIZE
    ensures var (g, x) := OnSent(h, d, keepAlive); OnSent(h.(pipe := p), d, keepAlive) == (g.(pipe := p), x)
  {
  }

  const NONE: Answer := Answer([], More)

  function Next(h: Http, a: Action, d: string, stopped: bool): Http
    requires Enabled(h, a) && |d| >= SEND_BUFFER_SIZE
  {
    match a
    case ReadFails => h.(pipe := SendPipeline.Next(h.pipe, ReadDone(true, NONE), stopped))
    case Read(input) =>
      (match input
       case Partial => h.(pipe := SendPipeline.Next(h.pipe, ReadDone(false, Answer([], Continue)), stopped))
       case Refused => h.(pipe := SendPipeline.Next(h.pipe, ReadDone(false, Answer([], Close)), stopped))
       case Whole(header, n) =>
         Http(SendPipeline.Next(h.pipe, ReadDone(false, Answer([header], Finished)), stopped),
              true, n, n, 0, |Concat(h.pipe.sent)| + |header|))
    case ReadAborted => h.(pipe := SendPipeline.Next(h.pipe, AbortedRead, stopped))
    case WriteOver(w, keepAlive) =>
      if w.Broken? || |h.pipe.outgoing| > 1 then h.(pipe := Written(h.pipe, w, NONE, stopped))
      else
        var (g, x) := OnSent(h, d, keepAlive);
        g.(pipe := Written(h.pipe, w, x, stopped))
    case ClosePost => h.(pipe := SendPipeline.Next(h.pipe, RunPosted, stopped))
    case NextConnection => h.(pipe := SendPipeline.Next(h.pipe, Reuse, stopped), responded := false)
  }

  lemma NextWrite(h: Http, d: string, keepAlive: bool, stopped: bool)
    requires Enabled(h, WriteOver(Complete, keepAlive)) && |d| >= SEND_BUFFER_SIZE
    ensures var q := h.pipe.(outgoing := h.pipe.outgoing[1..], wire := h.pipe.wire + h.pipe.writing.value);
            var (g, x) := OnSent(h, d, keepAlive);
            Next(h, WriteOver(Complete, keepAlive), d, stopped) ==
            if q.outgoing != [] then h.(pipe := q.(writing := Some(q.outgoing[0])))
            else g.(pipe := Emptied(q.(writing := None, broken := q.shutdown), x, stopped))
  {
    hide Emptied, OnSent;
  }

  lemma NextRead(h: Http, error: bool, input: Input, d: string, stopped: bool)
    requires h.pipe.reading && |d| >= SEND_BUFFER_SIZE
    ensures var p := h.pipe.(reading := false);
            Next(h, if error then ReadFails else Read(input), d, stopped) ==
            if error || input.Refused? then h.(pipe := ClosePosted(p, stopped))
            else if input.Partial? then h.(pipe := Received(p, stopped))
            else Http(Sent(p, input.header), true, input.size, input.size, 0, |Concat(p.sent)| + |input.header|)
  {
    hide Concat, ClosePosted, Received;
    if !error && input.Whole? { OneSent(h.pipe.(reading := false), input.header, Finished, stopped); }
  }

  lemma NextOther(h: Http, d: string, stopped: bool)
    requires |d| >= SEND_BUFFER_SIZE
    ensures h.pipe.aborted > 0 ==>
              Next(h, ReadAborted, d, stopped) == h.(pipe := ClosePosted(h.pipe.(aborted := h.pipe.aborted - 1), stopped))
    ensures h.pipe.posted > 0 ==> Next(h, ClosePost, d, stopped) == h.(pipe := Closed(h.pipe.(posted := h.pipe.posted - 1)))
  {
    hide ClosePosted, Closed;
  }

  function Init(): Http {
    Http(SendPipeline.Init(), false, 0, 0, 0, 0)
  }

  lemma InitInv()
    ensures Inv(Init())
  {
    ConcatNone();
  }

  /** The service reads or writes, never both; it writes only a response; after a failed write it sends nothing more;
      and the download of the current response is accounted for. */
  predicate Inv(h: Http) {
    var p := h.pipe;
    && SendPipeline.Inv(p)
    && (p.reading ==> p.outgoing == [] && !h.responded)
    && (p.outgoing != [] || p.failed ==> h.responded)
    && (p.failed ==> p.outgoing == [] && p.wire <= Concat(p.sent))
    && (h.responded ==> h.given + h.left == h.asked && |Concat(p.sent)| == h.base + h.given)
  }

  // What an answer without output does to the session.

  lemma QuietAnswer(p: Pipe, f: Feedback, stopped: bool)
    ensures var q := Answered(p, Answer([], f), stopped);
            && q.outgoing == p.outgoing && q.sent == p.sent && q.wire == p.wire && q.failed == p.failed
            && (q.reading ==> p.reading || f.Continue?)
  {
    hide ClosePosted, Received;
    QuietClose(p, stopped);
    QuietReceive(p, stopped);
  }

  lemma QuietReceive(p: Pipe, stopped: bool)
    ensures var q := Received(p, stopped);
            q.outgoing == p.outgoing && q.sent == p.sent && q.wire == p.wire && q.failed == p.failed
  {
  }

  lemma QuietClose(p: Pipe, stopped: bool)
    ensures var q := ClosePosted(p, stopped);
            q.outgoing == p.outgoing && q.sent == p.sent && q.wire == p.wire && q.failed == p.failed && (q.reading ==> p.reading)
  {
  }

  lemma ReadKeeps(h: Http, a: Action, d: string, stopped: bool)
    requires Inv(h) && Enabled(h, a) && |d| >= SEND_BUFFER_SIZE && (a.ReadFails? || a.Read?)
    ensures Inv(Next(h, a, d, stopped))
  {
    hide Concat, SendPipeline.Inv, Answered, ClosePosted;
    var p := h.pipe.(reading := false);
    SendPipeline.NextKeepsInv(h.pipe, ReadDone(true, NONE), stopped);
    QuietClose(p, stopped);
    QuietAnswer(p, Continue, stopped);
    QuietAnswer(p, Close, stopped);
    SendPipeline.NextKeepsInv(h.pipe, ReadDone(false, Answer([], Continue)), stopped);
    SendPipeline.NextKeepsInv(h.pipe, ReadDone(false, Answer([], Close)), stopped);
    if a.Read? && a.input.Whole? {
      SendPipeline.NextKeepsInv(h.pipe, ReadDone(false, Answer([a.input.header], Finished)), stopped);
      OneSent(p, a.input.header, Finished, stopped);
      SentBytes(p, a.input.header);
    }
  }

  lemma OneSent(p: Pipe, b: string, f: Feedback, stopped: bool)
    requires f.Finished? || f.More?
    ensures Answered(p, Answer([b], f), stopped) == Sent(p, b)
  {
    SendOne(p, b);
  }

  lemma OtherKeeps(h: Http, a: Action, d: string, stopped: bool)
    requires Inv(h) && Enabled(h, a) && |d| >= SEND_BUFFER_SIZE && (a.ReadAborted? || a.ClosePost? || a.NextConnection?)
    ensures Inv(Next(h, a, d, stopped))
  {
    hide SendPipeline.Inv;
    if a.ReadAborted? {
      SendPipeline.NextKeepsInv(h.pipe, AbortedRead, stopped);
    } else if a.ClosePost? {
      SendPipeline.NextKeepsInv(h.pipe, RunPosted, stopped);
    } else {
      SendPipeline.NextKeepsInv(h.pipe, Reuse, stopped);
      ReuseIsIdle(h.pipe);
    }
  }

  lemma ReuseIsIdle(p: Pipe)
    requires SendPipeline.Inv(p) && p.finalised
    ensures p.outgoing == [] && !p.reading
  {
  }

  lemma BrokenKeeps(h: Http, n: nat, keepAlive: bool, d: string, stopped: bool)
    requires Inv(h) && Enabled(h, WriteOver(Broken(n), keepAlive)) && |d| >= SEND_BUFFER_SIZE
    ensures Inv(Next(h, WriteOver(Broken(n), keepAlive), d, stopped))
  {
    SendPipeline.NextKeepsInv(h.pipe, WriteDone(Broken(n), NONE), stopped);
    PoppedBytes(h.pipe);
    hide Concat;
    var p := h.pipe.(outgoing := [], writing := None, failed := true, broken := h.pipe.shutdown, wire := h.pipe.wire + h.pipe.writing.value[..n]);
    QuietClose(p, stopped);
    assert !h.pipe.failed;
    assert Concat(p.sent) == h.pipe.wire + h.pipe.writing.value + Concat(h.pipe.outgoing[1..]);
  }

  lemma QuietEmptied(p: Pipe, f: Feedback, stopped: bool)
    ensures var q := Emptied(p, Answer([], f), stopped);
            && q.outgoing == p.outgoing && q.sent == p.sent && q.wire == p.wire && q.failed == p.failed
            && (q.reading ==> p.reading || f.Continue?)
  {
    hide Answered, ClosePosted;
    QuietAnswer(p, f, stopped);
    QuietClose(Answered(p, Answer([], f), stopped).(shutdown := false, broken := false), stopped);
  }

  lemma PieceEmptied(p: Pipe, b: string, stopped: bool)
    ensures var q := Emptied(p, Answer([b], More), stopped);
            q.outgoing == p.outgoing + [b] && q.sent == p.sent + [b] && q.wire == p.wire && q.failed == p.failed && (q.reading ==> p.reading)
  {
    hide Answered, ClosePosted;
    OneSent(p, b, More, stopped);
    QuietClose(Sent(p, b).(shutdown := false, broken := false), stopped);
  }

  lemma MoreKeeps(h: Http, keepAlive: bool, d: string, stopped: bool)
    requires Inv(h) && Enabled(h, WriteOver(Complete, keepAlive)) && |d| >= SEND_BUFFER_SIZE && |h.pipe.outgoing| > 1
    ensures Inv(Next(h, WriteOver(Complete, keepAlive), d, stopped))
  {
    hide Concat, Emptied;
    SendPipeline.NextKeepsInv(h.pipe, WriteDone(Complete, NONE), stopped);
  }

  lemma LastKeeps(h: Http, keepAlive: bool, d: string, stopped: bool)
    requires Inv(h) && Enabled(h, WriteOver(Complete, keepAlive)) && |d| >= SEND_BUFFER_SIZE && |h.pipe.outgoing| == 1
    ensures Inv(Next(h, WriteOver(Complete, keepAlive), d, stopped))
  {
    hide Concat, Emptied, SendPipeline.Inv;
    var p := h.pipe.(outgoing := [], writing := None, broken := h.pipe.shutdown, wire := h.pipe.wire + h.pipe.writing.value);
    var (g, x) := OnSent(h, d, keepAlive);
    SendPipeline.NextKeepsInv(h.pipe, WriteDone(Complete, x), stopped);
    assert h.pipe.outgoing[1..] == [];
    if h.left > 0 {
      PieceEmptied(p, d[..Piece(h.left)], stopped);
      ConcatSnoc(p.sent, d[..Piece(h.left)]);
    } else {
      QuietEmptied(p, x.feedback, stopped);
    }
  }

  lemma NextKeepsInv(h: Http, a: Action, d: string, stopped: bool)
    requires Inv(h) && Enabled(h, a) && |d| >= SEND_BUFFER_SIZE
    ensures Inv(Next(h, a, d, stopped))
  {
    hide Inv, Next, SendPipeline.Inv;
    match a
    case ReadFails => ReadKeeps(h, a, d, stopped);
    case Read(_) => ReadKeeps(h, a, d, stopped);
    case ReadAborted => OtherKeeps(h, a, d, stopped);
    case ClosePost => OtherKeeps(h, a, d, stopped);
    case NextConnection => OtherKeeps(h, a, d, stopped);
    case WriteOver(w, keepAlive) =>
      if w.Broken? {
        BrokenKeeps(h, w.n, keepAlive, d, stopped);
      } else if |h.pipe.outgoing| > 1 {
        MoreKeeps(h, keepAlive, d, stopped);
      } else {
        LastKeeps(h, keepAlive, d, stopped);
      }
  }

  // Whole runs. With each action come the bytes in the send buffer and whether the context is stopped.

  datatype Event = Event(action: Action, d: string, stopped: bool)

  function Reached(es: seq<Event>): Option<Http> {
    if es == [] then Some(Init())
    else
      var n := |es| - 1;
      var h := Reached(es[..n]);
      if h.Some? && Enabled(h.value, es[n].action) && |es[n].d| >= SEND_BUFFER_SIZE
      then Some(Next(h.value, es[n].action, es[n].d, es[n].stopped))
      else None
  }

  lemma {:induction false} RunKeepsInv(es: seq<Event>)
    requires Reached(es).Some?
    ensures Inv(Reached(es).value)
  {
    hide Next, Enabled;
    if es == [] {
      ConcatNone();
    } else {
      hide Inv;
      var n := |es| - 1;
      RunKeepsInv(es[..n]);
      NextKeepsInv(Reached(es[..n]).value, es[n].action, es[n].d, es[n].stopped);
    }
  }

  /** Delivery, over every run and every number of connections: what is on the wire is always a prefix of what was sent,
      in that order, also after a failed write; nothing is read while a response is on its way; and what was sent of the
      current response is its header and the part of its download that is not left. */
  lemma DeliveryIsSafe(es: seq<Event>)
    requires Reached(es).Some?
    ensures var h := Reached(es).value;
            && h.pipe.wire <= Concat(h.pipe.sent)
            && (h.pipe.reading ==> h.pipe.writing.None?)
            && (h.responded ==> h.given + h.left == h.asked && |Concat(h.pipe.sent)| == h.base + h.given)
  {
    hide Reached, Concat;
    RunKeepsInv(es);
  }

  // Without a stopped context.

  /** The service has no closing to put off, and is at any time reading, writing, about to close, or finalised. */
  predicate Calm(h: Http) {
    var p := h.pipe;
    && !p.shutdown && p.aborted == 0 && p.posted <= 1
    && (p.posted == 1 ==> p.outgoing == [] && !p.reading && !p.finalised)
    && (p.finalised || p.reading || p.outgoing != [] || p.posted == 1)
  }

  lemma CalmRead(h: Http, a: Action, d: string)
    requires Inv(h) && Calm(h) && Enabled(h, a) && |d| >= SEND_BUFFER_SIZE && !a.WriteOver?
    ensures Calm(Next(h, a, d, false))
  {
    hide Concat;
    var p := h.pipe.(reading := false);
    if a.Read? && a.input.Whole? { OneSent(p, a.input.header, Finished, false); }
  }

  lemma CalmWrite(h: Http, a: Action, d: string)
    requires Inv(h) && Calm(h) && Enabled(h, a) && |d| >= SEND_BUFFER_SIZE && a.WriteOver?
    ensures Calm(Next(h, a, d, false))
  {
    hide Concat;
    var p := h.pipe.(outgoing := [], writing := None, broken := h.pipe.shutdown, wire := h.pipe.wire + h.pipe.writing.value);
    OneSent(p, d[..Piece(h.left)], More, false);
    assert |h.pipe.outgoing| == 1 ==> h.pipe.outgoing[1..] == [];
  }

  /** As long as its context is not stopped, the HTTP service never sets the mark for closing, because it does not read
      while it writes; it never has two attempts to close posted; and it is never stranded. */
  lemma {:induction false} HttpNeverMarks(es: seq<Event>)
    requires Reached(es).Some? && forall e <- es :: !e.stopped
    ensures Calm(Reached(es).value)
  {
    hide Next, Enabled, Inv;
    if es != [] {
      var n := |es| - 1;
      assert !es[n].stopped && forall e <- es[..n] :: e in es;
      HttpNeverMarks(es[..n]);
      RunKeepsInv(es[..n]);
      var h := Reached(es[..n]).value;
      if es[n].action.WriteOver? { CalmWrite(h, es[n].action, es[n].d); } else { CalmRead(h, es[n].action, es[n].d); }
    }
  }

  // The download.

  /** When the last write of a response is over and nothing is left to download, exactly the bytes that were
      asked for have gone out after the header. */
  lemma DownloadIsExact(h: Http, keepAlive: bool)
    requires Inv(h) && Enabled(h, WriteOver(Complete, keepAlive)) && |h.pipe.outgoing| == 1 && h.left == 0
    ensures |h.pipe.wire + h.pipe.writing.value| == h.base + h.asked
  {
    PoppedBytes(h.pipe);
  }

  function Pieces(n: nat): nat {
    if n == 0 then 0 else 1 + Pieces(n - Piece(n))
  }

  lemma {:induction false} PiecesRoundUp(n: nat)
    ensures Pieces(n) == (n + SEND_BUFFER_SIZE - 1) / SEND_BUFFER_SIZE
  {
    if n > 0 { PiecesRoundUp(n - Piece(n)); }
  }

  function Completed(h: Http, d: string, keepAlive: bool, k: nat): Http
    requires |d| >= SEND_BUFFER_SIZE
    decreases k
  {
    if k == 0 || !Enabled(h, WriteOver(Complete, keepAlive)) then h
    else Completed(Next(h, WriteOver(Complete, keepAlive), d, false), d, keepAlive, k - 1)
  }

  lemma PiecesLeft(n: nat)
    ensures n == 0 ==> Pieces(n) == 0
    ensures n > 0 ==> Pieces(n) == 1 + Pieces(n - Piece(n)) && 0 < Piece(n) <= n
    ensures Piece(n) <= SEND_BUFFER_SIZE
  {
  }

  lemma AfterWrite(h: Http, d: string, keepAlive: bool)
    requires Inv(h) && |h.pipe.outgoing| == 1 && |d| >= SEND_BUFFER_SIZE
    ensures var g := Next(h, WriteOver(Complete, keepAlive), d, false);
            && g.base == h.base && g.asked == h.asked && g.pipe.wire == h.pipe.wire + h.pipe.writing.value
            && (h.left > 0 ==> |g.pipe.outgoing| == 1 && g.left == h.left - Piece(h.left) && g.pipe.sent == h.pipe.sent + [d[..Piece(h.left)]])
            && (h.left == 0 ==> g.pipe.outgoing == [] && g.left == 0 && g.given == h.given && g.pipe.sent == h.pipe.sent)
  {
    hide Concat, Emptied, SendPipeline.Inv;
    WritingFront(h.pipe);
    assert h.pipe.outgoing[1..] == [];
    var p := h.pipe.(outgoing := [], writing := None, broken := h.pipe.shutdown, wire := h.pipe.wire + h.pipe.writing.value);
    var (g, x) := OnSent(h, d, keepAlive);
    if h.left > 0 { PieceEmptied(p, d[..Piece(h.left)], false); } else { QuietEmptied(p, x.feedback, false); }
  }

  lemma WritingFront(p: Pipe)
    requires SendPipeline.Inv(p) && p.outgoing != []
    ensures p.writing == Some(p.outgoing[0])
  {
  }

  // What comes behind each write and each read, on a context that is not stopped.

  /** With another buffer in the queue, that is the next write, and nothing else happens. */
  lemma NextBuffer(h: Http, d: string, keepAlive: bool, stopped: bool)
    requires Inv(h) && |h.pipe.outgoing| > 1 && |d| >= SEND_BUFFER_SIZE
    ensures Enabled(h, WriteOver(Complete, keepAlive))
    ensures Next(h, WriteOver(Complete, keepAlive), d, stopped) ==
            h.(pipe := h.pipe.(outgoing := h.pipe.outgoing[1..], writing := Some(h.pipe.outgoing[1]), wire := h.pipe.wire + h.pipe.writing.value))
  {
    hide Concat, Emptied;
  }

  /** With some of the download left, its next piece is the next write. */
  lemma NextPiece(h: Http, d: string, keepAlive: bool)
    requires Inv(h) && |h.pipe.outgoing| == 1 && h.left > 0 && |d| >= SEND_BUFFER_SIZE
    ensures Enabled(h, WriteOver(Complete, keepAlive))
    ensures var g, m := Next(h, WriteOver(Complete, keepAlive), d, false), if h.left < SEND_BUFFER_SIZE then h.left else SEND_BUFFER_SIZE;
            && g.pipe.outgoing == [d[..m]] && g.pipe.writing == Some(d[..m]) && g.left == h.left - m && g.responded && !g.pipe.reading
            && !g.pipe.shutdown && g.pipe.posted == h.pipe.posted + if h.pipe.shutdown then 1 else 0
  {
    hide Concat;
    assert h.pipe.outgoing[1..] == [];
    var p := h.pipe.(outgoing := [], writing := None, broken := h.pipe.shutdown, wire := h.pipe.wire + h.pipe.writing.value);
    OneSent(p, d[..Piece(h.left)], More, false);
  }

  /** When the last write is over, a connection to be kept alive reads the next request, and no closing is asked for; any
      other does not read, and one attempt to close is posted. */
  lemma LastWrite(h: Http, d: string, keepAlive: bool)
    requires Inv(h) && |h.pipe.outgoing| == 1 && h.left == 0 && |d| >= SEND_BUFFER_SIZE
    ensures Enabled(h, WriteOver(Complete, keepAlive))
    ensures var g, marked := Next(h, WriteOver(Complete, keepAlive), d, false), if h.pipe.shutdown then 1 else 0;
            && g.pipe.outgoing == [] && g.pipe.writing.None? && g.left == 0 && !g.pipe.shutdown && g.pipe.finalised == h.pipe.finalised
            && (keepAlive ==> g.pipe.reading && !g.responded && g.pipe.posted == h.pipe.posted + marked)
            && (!keepAlive ==> !g.pipe.reading && g.responded && g.pipe.posted == h.pipe.posted + 1 + marked)
  {
    hide Concat;
    assert h.pipe.outgoing[1..] == [];
  }

  /** A write that breaks is the last one: the queue is dropped, nothing is read, and an attempt to close is posted. */
  lemma BrokenWrite(h: Http, n: nat, d: string, keepAlive: bool)
    requires Inv(h) && Enabled(h, WriteOver(Broken(n), keepAlive)) && |d| >= SEND_BUFFER_SIZE
    ensures var g := Next(h, WriteOver(Broken(n), keepAlive), d, false);
            && g.pipe.outgoing == [] && g.pipe.writing.None? && !g.pipe.reading && g.pipe.posted == h.pipe.posted + 1
            && g.left == h.left && g.responded
  {
    hide Concat;
  }

  /** A read that fails, or brings something to refuse, asks for closing and is the last one; part of a request is read on;
      a whole one is answered. */
  lemma AfterRead(h: Http, error: bool, input: Input, d: string)
    requires Inv(h) && h.pipe.reading && |d| >= SEND_BUFFER_SIZE
    ensures var g := Next(h, if error then ReadFails else Read(input), d, false);
            && (error || input.Refused? ==> !g.pipe.reading && g.pipe.outgoing == [] && g.pipe.posted == h.pipe.posted + 1)
            && (!error && input.Partial? ==> g == h)
            && (!error && input.Whole? ==>
                  && !g.pipe.reading && g.pipe.outgoing == [input.header] && g.pipe.writing == Some(input.header)
                  && g.responded && g.left == input.size && g.pipe.posted == h.pipe.posted)
  {
    hide Concat;
    NextRead(h, error, input, d, false);
  }

  /** Left alone, the writes of a response are its header and then pieces of at most 64 KiB, as many as the download
      rounded up: as many completions later the whole download has gone out, and the session reads the next request if the
      connection is to be kept alive, and has an attempt to close posted if not. */
  lemma {:induction false} DownloadTakes(h: Http, d: string, keepAlive: bool)
    requires Inv(h) && |h.pipe.outgoing| == 1 && |d| >= SEND_BUFFER_SIZE
    ensures var n := (h.left + SEND_BUFFER_SIZE - 1) / SEND_BUFFER_SIZE;
            var g := Completed(h, d, keepAlive, 1 + n);
            && g.pipe.outgoing == [] && g.left == 0 && g.asked == h.asked && g.base == h.base && |g.pipe.wire| == h.base + h.asked
            && |g.pipe.sent| == |h.pipe.sent| + n && h.pipe.sent <= g.pipe.sent
            && g.pipe.reading == keepAlive && g.responded == !keepAlive
            && g.pipe.posted == h.pipe.posted + (if keepAlive then 0 else 1) + (if h.pipe.shutdown then 1 else 0)
            && forall i :: |h.pipe.sent| <= i < |g.pipe.sent| ==> |g.pipe.sent[i]| <= SEND_BUFFER_SIZE
    decreases h.left
  {
    hide Concat, Pieces, Inv, Next;
    PiecesRoundUp(h.left);
    CanWrite(h, keepAlive);
    var g := Next(h, WriteOver(Complete, keepAlive), d, false);
    NextKeepsInv(h, WriteOver(Complete, keepAlive), d, false);
    AfterWrite(h, d, keepAlive);
    PiecesLeft(h.left);
    if h.left > 0 {
      NextPiece(h, d, keepAlive);
      PiecesRoundUp(g.left);
      DownloadTakes(g, d, keepAlive);
    } else {
      LastWrite(h, d, keepAlive);
      DownloadIsExact(h, keepAlive);
      assert Completed(h, d, keepAlive, 1) == Completed(g, d, keepAlive, 0);
    }
  }

  lemma CanWrite(h: Http, keepAlive: bool)
    requires Inv(h) && h.pipe.outgoing != []
    ensures Enabled(h, WriteOver(Complete, keepAlive))
  {
  }
}
