/** A session with the HTTP service on it, as an object whose handlers run one at a time. */
module HttpSessions {
  import opened Options
  import Texts
  import opened DynamicStrings
  import SP = SendPipeline
  import HD = HttpDelivery

  class HttpSession {
    var outgoing: seq<string>
    var writing: Option<string>
    var prepareForShutdown: bool
    var finalised: bool
    var reading: bool
    var posted: nat
    var responded: bool
    var downloadSize: nat
    const d: DynamicString
    ghost var past: HD.Http

    /** The state of the session; `past` supplies the history. */
    ghost function View(): HD.Http
      reads this
    {
      past.(pipe := Pipe(), responded := responded, left := downloadSize)
    }

    ghost function Pipe(): SP.Pipe
      reads this
    {
      past.pipe.(outgoing := outgoing, writing := writing, shutdown := prepareForShutdown, finalised := finalised,
                 reading := reading, posted := posted)
    }

    ghost predicate Valid()
      reads this, d
    {
      HD.Inv(View()) && d.Valid() && d.buffer.Length >= HD.SEND_BUFFER_SIZE
    }

    constructor (d: DynamicString)
      requires d.Valid() && d.buffer.Length >= HD.SEND_BUFFER_SIZE
      ensures Valid() && this.d == d && View() == HD.Init()
    {
      this.d := d;
      outgoing, writing, prepareForShutdown, finalised, reading, posted := [], None, false, true, false, 0;
      responded, downloadSize := false, 0;
      past := HD.Init();
      HD.InitInv();
      new;
      hide HD.Inv;
      assert View() == HD.Init();
    }

    /** Queues a buffer. A write is started exactly if none is in flight. */
    method Send(qb: string)
      requires SP.InvBut(Pipe(), true) && !finalised
      modifies this`outgoing, this`writing, this`past
      ensures SP.InvBut(Pipe(), true) && (old(SP.Inv(Pipe())) ==> SP.Inv(Pipe()))
      ensures outgoing == old(outgoing) + [qb] && writing == if old(writing).None? then Some(qb) else old(writing)
      ensures View() == old(View()).(pipe := SP.Sent(old(Pipe()), qb))
    {
      hide Texts.Concat;
      SP.SentKeeps(Pipe(), qb, true);
      if SP.Inv(Pipe()) { SP.SentKeeps(Pipe(), qb, false); }
      var idle := outgoing == [];
      outgoing := outgoing + [qb];
      past := past.(pipe := past.pipe.(sent := past.pipe.sent + [qb]));
      if idle { AsyncSend(); }
    }

    method AsyncSend()
      requires outgoing != []
      modifies this`writing
      ensures writing == Some(outgoing[0])
    {
      writing := Some(outgoing[0]);
    }

    /** Closes the session, or sees to it that it is closed: it is finalised, or marked with a write in flight. */
    method CloseOnce()
      requires SP.InvBut(Pipe(), true)
      modifies this`prepareForShutdown, this`finalised, this`reading, this`past
      ensures SP.Inv(Pipe())
      ensures finalised || (prepareForShutdown && writing.Some?)
      ensures old(writing).Some? ==> finalised == old(finalised) && reading == old(reading)
      ensures old(writing).None? ==> finalised && past.pipe.aborted == old(past.pipe.aborted) + if old(reading) && !old(finalised) then 1 else 0
      ensures View() == old(View()).(pipe := SP.Closed(old(Pipe())))
    {
      hide Texts.Concat;
      SP.ClosedKeeps(Pipe());
      past := past.(pipe := past.pipe.(requested := true));
      if outgoing != [] {
        prepareForShutdown := true;
      } else if !finalised {
        past := past.(pipe := past.pipe.(aborted := if reading then past.pipe.aborted + 1 else past.pipe.aborted));
        finalised, reading := true, false;
      }
    }

    /** Posts an attempt to close; with the context stopped, it is made at once. */
    method AsyncClose(stopped: bool)
      requires SP.InvBut(Pipe(), true)
      modifies this`prepareForShutdown, this`finalised, this`reading, this`posted, this`past
      ensures SP.Inv(Pipe()) && posted == old(posted) + 1 && (!stopped ==> reading == old(reading)) && (stopped ==> finalised || (prepareForShutdown && writing.Some?))
      ensures View() == old(View()).(pipe := SP.ClosePosted(old(Pipe()), stopped))
    {
      hide Texts.Concat;
      SP.PostedKeeps(Pipe(), stopped);
      past := past.(pipe := past.pipe.(requested := true));
      posted := posted + 1;
      if stopped { CloseOnce(); }
    }

    method AsyncReceive(stopped: bool)
      requires SP.InvBut(Pipe(), true) && !finalised
      modifies this`prepareForShutdown, this`finalised, this`reading, this`past
      ensures SP.InvBut(Pipe(), true) && (!stopped ==> reading)
      ensures View() == old(View()).(pipe := SP.Received(old(Pipe()), stopped))
    {
      hide Texts.Concat;
      SP.ReceivedKeeps(Pipe(), stopped, true);
      reading := true;
      if stopped { CloseOnce(); }
    }

    /** `get_data`: the next piece of the download, at most 64 KiB, into the send buffer. */
    method GetData()
      requires downloadSize > 0 && d.Valid() && d.buffer.Length >= HD.SEND_BUFFER_SIZE
      modifies this`downloadSize, this`past, d`end
      ensures d.Valid() && d.Contents() == d.buffer[..d.end] && 0 < d.end <= HD.SEND_BUFFER_SIZE && d.end + downloadSize == old(downloadSize)
      ensures d.end < HD.SEND_BUFFER_SIZE ==> downloadSize == 0
      ensures past == old(past).(given := old(past).given + d.end) && d.end == HD.Piece(old(downloadSize))
    {
      var count := HD.SEND_BUFFER_SIZE;
      if HD.SEND_BUFFER_SIZE > downloadSize { count := downloadSize; }
      d.Fill(count);
      downloadSize := downloadSize - count;
      past := past.(given := past.given + count);
    }

    /** The answer of the service when the queue has run empty, and what the session does with it. */
    method OnSent(keepAlive: bool, stopped: bool)
      requires d.Valid() && d.buffer.Length >= HD.SEND_BUFFER_SIZE && SP.Drained(Pipe())
      modifies this, d`end
      ensures d.Valid() && SP.InvBut(Pipe(), true)
      ensures var (g, x) := HD.OnSent(old(View()), d.buffer[..], keepAlive);
              View() == g.(pipe := SP.Answered(old(Pipe()), x, stopped))
    {
      hide Texts.Concat, SP.Inv, SP.Closed, SP.ClosePosted, SP.Received;
      ghost var p := Pipe();
      if downloadSize > 0 {
        GetData();
        var text := d.buffer[..d.end];
        assert text == d.buffer[..][..d.end];
        HD.OneSent(p, text, SP.More, stopped);
        Send(text);
      } else if keepAlive {
        responded := false;
        AsyncReceive(stopped);
      } else {
        AsyncClose(stopped);
        SP.Pend(Pipe());
      }
    }

    /** The write in flight is over: the next one is started, or the service is asked for more. */
    method SendEvent(w: SP.Write, keepAlive: bool, stopped: bool)
      requires Valid() && HD.Enabled(View(), HD.WriteOver(w, keepAlive))
      modifies this, d`end
      ensures Valid() && View() == HD.Next(old(View()), HD.WriteOver(w, keepAlive), d.buffer[..], stopped)
      ensures w.Complete? && |old(outgoing)| > 1 ==>
                outgoing == old(outgoing)[1..] && writing == Some(outgoing[0]) && posted == old(posted) && reading == old(reading) && downloadSize == old(downloadSize)
      ensures !stopped && w.Complete? && |old(outgoing)| == 1 && old(downloadSize) > 0 ==>
                var m := if old(downloadSize) < HD.SEND_BUFFER_SIZE then old(downloadSize) else HD.SEND_BUFFER_SIZE;
                outgoing == [d.buffer[..m]] && writing == Some(d.buffer[..m]) && downloadSize == old(downloadSize) - m && !reading
                && posted == old(posted) + if old(prepareForShutdown) then 1 else 0
      ensures !stopped && w.Complete? && |old(outgoing)| == 1 && old(downloadSize) == 0 ==>
                outgoing == [] && writing.None? && reading == keepAlive && responded == !keepAlive && !prepareForShutdown
                && posted == old(posted) + (if keepAlive then 0 else 1) + (if old(prepareForShutdown) then 1 else 0)
      ensures !stopped && w.Broken? ==> outgoing == [] && writing.None? && !reading && posted == old(posted) + 1
    {
      hide HD.Inv, HD.Next;
      HD.NextKeepsInv(View(), HD.WriteOver(w, keepAlive), d.buffer[..], stopped);
      SendOutcome(View(), w, keepAlive, d.buffer[..], stopped);
      if w.Broken? { WriteBroke(w.n, keepAlive, stopped); } else { WriteComplete(keepAlive, stopped); }
    }

    /** The same, on the state of the session. */
    static lemma SendOutcome(h: HD.Http, w: SP.Write, keepAlive: bool, text: string, stopped: bool)
      requires HD.Inv(h) && HD.Enabled(h, HD.WriteOver(w, keepAlive)) && |text| >= HD.SEND_BUFFER_SIZE
      ensures var g, m := HD.Next(h, HD.WriteOver(w, keepAlive), text, stopped), if h.left < HD.SEND_BUFFER_SIZE then h.left else HD.SEND_BUFFER_SIZE;
              && (w.Complete? && |h.pipe.outgoing| > 1 ==>
                    g == h.(pipe := h.pipe.(outgoing := h.pipe.outgoing[1..], writing := Some(h.pipe.outgoing[1]), wire := h.pipe.wire + h.pipe.writing.value)))
              && (!stopped && w.Complete? && |h.pipe.outgoing| == 1 && h.left > 0 ==>
                    g.pipe.outgoing == [text[..m]] && g.pipe.writing == Some(text[..m]) && g.left == h.left - m && !g.pipe.reading
                    && g.pipe.posted == h.pipe.posted + if h.pipe.shutdown then 1 else 0)
              && (!stopped && w.Complete? && |h.pipe.outgoing| == 1 && h.left == 0 ==>
                    g.pipe.outgoing == [] && g.pipe.writing.None? && g.pipe.reading == keepAlive && g.responded == !keepAlive && !g.pipe.shutdown
                    && g.pipe.posted == h.pipe.posted + (if keepAlive then 0 else 1) + (if h.pipe.shutdown then 1 else 0))
              && (!stopped && w.Broken? ==> g.pipe.outgoing == [] && g.pipe.writing.None? && !g.pipe.reading && g.pipe.posted == h.pipe.posted + 1)
    {
      hide HD.Inv, HD.Next;
      if w.Broken? {
        if !stopped { HD.BrokenWrite(h, w.n, text, keepAlive); }
      } else if |h.pipe.outgoing| > 1 {
        HD.NextBuffer(h, text, keepAlive, stopped);
      } else if !stopped {
        if h.left > 0 { HD.NextPiece(h, text, keepAlive); } else { HD.LastWrite(h, text, keepAlive); }
      }
    }

    method WriteBroke(n: nat, keepAlive: bool, stopped: bool)
      requires Valid() && HD.Enabled(View(), HD.WriteOver(SP.Broken(n), keepAlive))
      modifies this
      ensures View() == HD.Next(old(View()), HD.WriteOver(SP.Broken(n), keepAlive), d.buffer[..], stopped)
    {
      hide Texts.Concat, SP.ClosePosted;
      past := past.(pipe := past.pipe.(failed := true, broken := prepareForShutdown, wire := past.pipe.wire + writing.value[..n]));
      outgoing, writing := [], None;
      AsyncClose(stopped);
    }

    /** The front of the queue is out. */
    method PopFront()
      requires outgoing != [] && writing.Some?
      modifies this`outgoing, this`writing, this`past
      ensures var q := old(Pipe()).(outgoing := old(outgoing)[1..], wire := old(past).pipe.wire + old(writing).value);
              && outgoing == q.outgoing
              && View() == old(View()).(pipe := if q.outgoing != [] then q.(writing := Some(q.outgoing[0])) else q.(writing := None, broken := q.shutdown))
    {
      past := past.(pipe := past.pipe.(wire := past.pipe.wire + writing.value));
      outgoing := outgoing[1..];
      if outgoing != [] {
        AsyncSend();
      } else {
        writing := None;
        past := past.(pipe := past.pipe.(broken := prepareForShutdown));
      }
    }

    method WriteComplete(keepAlive: bool, stopped: bool)
      requires Valid() && HD.Enabled(View(), HD.WriteOver(SP.Complete, keepAlive))
      modifies this, d`end
      ensures d.Valid() && View() == HD.Next(old(View()), HD.WriteOver(SP.Complete, keepAlive), d.buffer[..], stopped)
    {
      hide Texts.Concat, SP.Emptied, HD.OnSent, HD.Inv, SP.Inv, SP.Drained, HD.Next;
      DrainsNext();
      ghost var h := View();
      HD.NextWrite(h, d.buffer[..], keepAlive, stopped);
      PopFront();
      if outgoing == [] {
        HD.OnSentPipe(h, View().pipe, d.buffer[..], keepAlive);
        QueueEmpty(keepAlive, stopped);
      }
    }

    lemma DrainsNext()
      requires HD.Inv(View()) && outgoing != [] && writing.Some?
      ensures |outgoing| == 1 ==>
                SP.Drained(Pipe().(outgoing := [], writing := None, broken := prepareForShutdown, wire := past.pipe.wire + writing.value))
      ensures |outgoing| == 1 <==> outgoing[1..] == []
    {
      SP.CompleteKeeps(Pipe(), HD.NONE, false);
    }

    method QueueEmpty(keepAlive: bool, stopped: bool)
      requires d.Valid() && d.buffer.Length >= HD.SEND_BUFFER_SIZE && SP.Drained(Pipe())
      modifies this, d`end
      ensures d.Valid()
      ensures var (g, x) := HD.OnSent(old(View()), d.buffer[..], keepAlive);
              View() == g.(pipe := SP.Emptied(old(Pipe()), x, stopped))
    {
      hide Texts.Concat, SP.Inv, SP.InvBut, SP.Drained, SP.Answered, SP.ClosePosted, HD.OnSent;
      OnSent(keepAlive, stopped);
      if prepareForShutdown {
        SP.ClearedKeeps(Pipe());
        prepareForShutdown := false;
        past := past.(pipe := past.pipe.(broken := false));
        AsyncClose(stopped);
      }
    }

    /** Sends the header of a response and starts its download. */
    method Respond(header: string, size: nat)
      requires SP.InvBut(Pipe(), true) && !finalised && outgoing == []
      modifies this`outgoing, this`writing, this`past, this`responded, this`downloadSize
      ensures View() == HD.Http(SP.Sent(old(Pipe()), header), true, size, size, 0, |Texts.Concat(old(past).pipe.sent)| + |header|)
      ensures outgoing == [header] && writing == Some(header) && downloadSize == size
    {
      hide Texts.Concat, SP.Inv;
      responded, downloadSize := true, size;
      past := past.(asked := size, given := 0, base := |Texts.Concat(past.pipe.sent)| + |header|);
      WriteInv(Pipe());
      Send(header);
    }

    static lemma WriteInv(p: SP.Pipe)
      requires SP.InvBut(p, true)
      ensures p.writing.Some? <==> p.outgoing != []
    {
      hide Texts.Concat;
    }

    /** A read is over. A failed one asks for closing; a whole request is answered, which no read interrupts. */
    method ReceiveEvent(error: bool, input: HD.Input, stopped: bool)
      requires Valid() && reading
      modifies this
      ensures Valid() && View() == HD.Next(old(View()), if error then HD.ReadFails else HD.Read(input), d.buffer[..], stopped)
      ensures !error && input.Whole? ==> outgoing == [input.header] && writing == Some(input.header) && downloadSize == input.size && !reading
      ensures !error && input.Whole? ==> responded && posted == old(posted)
      ensures !stopped && (error || input.Refused?) ==> !reading && outgoing == [] && posted == old(posted) + 1
      ensures !stopped && !error && input.Partial? ==> reading && outgoing == [] && posted == old(posted) && !responded
    {
      hide HD.Inv, HD.Next, Texts.Concat, SP.Inv, SP.Closed, SP.ClosePosted, SP.Received;
      HD.NextRead(View(), error, input, d.buffer[..], stopped);
      ghost var a := if error then HD.ReadFails else HD.Read(input);
      HD.NextKeepsInv(View(), a, d.buffer[..], stopped);
      ReadIsIdle();
      reading := false;
      if !error && input.Whole? { Respond(input.header, input.size); } else { ReceiveQuiet(error || input.Refused?, stopped); }
    }

    /** A read that brings no whole request: the session closes, or reads on. */
    method ReceiveQuiet(close: bool, stopped: bool)
      requires SP.InvBut(Pipe(), true) && !finalised
      modifies this`prepareForShutdown, this`finalised, this`reading, this`posted, this`past
      ensures View() == old(View()).(pipe := if close then SP.ClosePosted(old(Pipe()), stopped) else SP.Received(old(Pipe()), stopped))
      ensures !stopped ==> reading == (!close || old(reading)) && posted == old(posted) + if close then 1 else 0
    {
      hide Texts.Concat, SP.Inv, SP.InvBut, SP.Closed, SP.ClosePosted, SP.Received;
      if close { AsyncClose(stopped); } else { AsyncReceive(stopped); }
    }

    lemma ReadIsIdle()
      requires HD.Inv(View()) && reading
      ensures outgoing == [] && writing.None? && !finalised && !responded && SP.InvBut(Pipe().(reading := false), true)
    {
      hide Texts.Concat;
    }

    /** The read of a socket that is gone reports that it was aborted. */
    method AbortedReceiveEvent(stopped: bool)
      requires Valid() && past.pipe.aborted > 0
      modifies this
      ensures Valid() && View() == HD.Next(old(View()), HD.ReadAborted, d.buffer[..], stopped)
      ensures !stopped ==> past.pipe.aborted == old(past).pipe.aborted - 1 && posted == old(posted) + 1
    {
      hide Texts.Concat, HD.Inv, HD.Next, SP.Closed;
      HD.NextOther(View(), d.buffer[..], stopped);
      HD.NextKeepsInv(View(), HD.ReadAborted, d.buffer[..], stopped);
      AbortIsFine();
      past := past.(pipe := past.pipe.(aborted := past.pipe.aborted - 1));
      AsyncClose(stopped);
    }

    lemma AbortIsFine()
      requires HD.Inv(View()) && past.pipe.aborted > 0
      ensures SP.InvBut(Pipe().(aborted := past.pipe.aborted - 1), true)
    {
      hide Texts.Concat;
    }

    /** A posted attempt to close is run. */
    method RunPostedClose()
      requires Valid() && posted > 0
      modifies this
      ensures Valid() && View() == HD.Next(old(View()), HD.ClosePost, d.buffer[..], false)
      ensures finalised || (prepareForShutdown && writing.Some?)
      ensures posted == old(posted) - 1 && (old(writing).None? ==> finalised)
    {
      hide Texts.Concat, HD.Inv, HD.Next, SP.Closed;
      HD.NextOther(View(), d.buffer[..], false);
      HD.NextKeepsInv(View(), HD.ClosePost, d.buffer[..], false);
      PostIsFine();
      posted := posted - 1;
      CloseOnce();
    }

    lemma PostIsFine()
      requires HD.Inv(View()) && posted > 0
      ensures SP.InvBut(Pipe().(posted := posted - 1), true)
    {
      hide Texts.Concat;
    }

    /** The next connection: set-up and start. The mark for closing is not cleared. */
    method SessionStart(stopped: bool)
      requires Valid() && finalised
      modifies this
      ensures Valid() && View() == HD.Next(old(View()), HD.NextConnection, d.buffer[..], stopped)
      ensures !stopped ==> reading && !finalised && prepareForShutdown == old(prepareForShutdown)
    {
      hide Texts.Concat, HD.Inv;
      HD.NextKeepsInv(View(), HD.NextConnection, d.buffer[..], stopped);
      StartIsFine();
      finalised, responded := false, false;
      past := past.(pipe := past.pipe.(sent := [], wire := "", failed := false, requested := false));
      AsyncReceive(stopped);
    }

    lemma StartIsFine()
      requires HD.Inv(View()) && finalised
      ensures SP.InvBut(Pipe().(finalised := false, sent := [], wire := "", failed := false, requested := false), true)
    {
      Texts.ConcatNone();
      hide Texts.Concat;
    }
  }
}
