/** Decoding a body gives back what was encoded. */
module ChunkedBody {
  import opened Chars
  import opened Options
  import opened ParserTypes
  import opened Transition
  import opened ParserRun
  import opened Execute
  import opened Numbers
  import opened Walk
  import opened HeaderLines
  import opened HeaderBlocks

  /** A chunk as section 4.1 of RFC 7230 frames it: a size in any hex spelling, extensions, data. */
  datatype Chunk = Chunk(size: string, ext: string, data: string)

  predicate HexOf(size: string, n: nat) {
    size != "" && (forall x <- size :: IsHex(x)) && HexVal(size) == n
  }

  predicate ExtOk(ext: string) {
    ext == "" || ((ext[0] == ';' || ext[0] == ' ') && CR !in ext)
  }

  predicate ChunkOk(k: Chunk) {
    HexOf(k.size, |k.data|) && 0 < |k.data| <= INT64_MAX && ExtOk(k.ext)
  }

  function EncodeLine(size: string, ext: string): string {
    size + ext + CRLF
  }

  function EncodeChunk(k: Chunk): string {
    EncodeLine(k.size, k.ext) + k.data + CRLF
  }

  function Encode(ks: seq<Chunk>): string {
    if ks == [] then "" else EncodeChunk(ks[0]) + Encode(ks[1..])
  }

  /** The callbacks for a sequence of chunks. */
  function Events(ks: seq<Chunk>): seq<Event> {
    if ks == [] then []
    else [ChunkHeader(|ks[0].data|), Data(Body, ks[0].data), ChunkComplete] + Events(ks[1..])
  }

  lemma ExtBytes(p: Parser, x: char)
    requires p.state.InChunkSize?
    ensures p.state.chunk.ChunkSize? && (x == ';' || x == ' ') ==> Dispatch(p, x) == Go(p.(state := InChunkSize(ChunkParameters)))
    ensures p.state.chunk.ChunkParameters? && x != CR ==> Dispatch(p, x) == Go(p)
    ensures (p.state.chunk.ChunkSize? || p.state.chunk.ChunkParameters?) && x == CR ==>
              Dispatch(p, x) == Go(p.(state := InChunkSize(ChunkSizeAlmostDone)))
  {
  }

  lemma LineEnd(p: Parser)
    requires p.state == InChunkSize(ChunkSizeAlmostDone)
    ensures Dispatch(p, LF) ==
            Out(if p.contentLength == 0 then p.(msg := p.msg.(trailing := true), state := InField(HeaderFieldStart))
                else p.(state := InBody(ChunkData)),
                None, Keep, [ChunkHeader(p.contentLength)], false, Next)
  {
  }

  lemma RunExt(c: Conf, ext: string)
    requires c.halt.Running? && c.open.None? && c.p.state == InChunkSize(ChunkSize) && ExtOk(ext)
    ensures var d := Run(c, ext);
            At(d, d.p, None, c.trace, c.count + |ext|) && d.p == c.p.(state := d.p.state)
            && (d.p.state == InChunkSize(ChunkSize) || d.p.state == InChunkSize(ChunkParameters))
  {
    hide Dispatch, Apply, Push;
    if ext != "" {
      ExtBytes(c.p, ext[0]);
      var q := c.p.(state := InChunkSize(ChunkParameters));
      StepGo(c, ext[0], q);
      var t := ext[1..];
      forall x <- t
        ensures Dispatch(q, x) == Go(q)
      {
        ExtBytes(q, x);
      }
      IdleOrEmpty(Run(c, [ext[0]]), t);
      RunAppend(c, [ext[0]], t);
      assert [ext[0]] + t == ext;
    }
  }

  /** The line that opens a chunk announces its size. */
  lemma RunSizeLine(c: Conf, size: string, ext: string, n: nat)
    requires c.halt.Running? && c.open.None? && c.p.state == InChunkSize(ChunkSizeStart)
    requires HexOf(size, n) && n <= INT64_MAX && ExtOk(ext)
    ensures At(Run(c, EncodeLine(size, ext)),
               (if n == 0 then c.p.(msg := c.p.msg.(trailing := true), state := InField(HeaderFieldStart))
                else c.p.(state := InBody(ChunkData))).(contentLength := n),
               None, Push(c.trace, ChunkHeader(n)), c.count + |EncodeLine(size, ext)|)
  {
    hide Dispatch, Apply, Push, Run;
    ChunkSizeExact(c, size);
    var c1 := Run(c, size);
    RunExt(c1, ext);
    var c2 := Run(c1, ext);
    ExtBytes(c2.p, CR);
    var q := c2.p.(state := InChunkSize(ChunkSizeAlmostDone));
    StepGo(c2, CR, q);
    var c3 := Run(c2, [CR]);
    LineEnd(c3.p);
    StepCall(c3, LF, Dispatch(c3.p, LF).p, ChunkHeader(n), false);
    RunAppend(c, size, ext);
    RunAppend(c, size + ext, [CR]);
    RunAppend(c, size + ext + [CR], [LF]);
    assert size + ext + [CR] + [LF] == EncodeLine(size, ext);
  }

  /** A body of known length is reported whole, up to its last byte. */
  lemma RunData(c: Conf, data: string)
    requires c.halt.Running? && c.open.None? && Bulk(c.p.state) && 0 < |data| == c.p.contentLength
    ensures var n := |data| - 1;
            At(Run(c, data[..n]), c.p.(contentLength := 1), if n == 0 then None else Some(Body),
               if n == 0 then c.trace else Push(c.trace, Data(Body, data[..n])), c.count + n)
  {
    hide Dispatch, Apply, Push;
    var s := data[..|data| - 1];
    RunBulk(c, s, "");
    assert s + "" == s;
    if s != "" {
      PushTwice(c.trace, Body, "", s);
      assert "" + s == s;
    }
  }

  lemma ChunkTail(p: Parser, b: char)
    requires p.state.InBody?
    ensures p.state.body.ChunkDataAlmostDone? ==> Dispatch(p, b) == Go(p.(state := InBody(ChunkDataDone))).(flush := Before(Body))
    ensures p.state.body.ChunkDataDone? ==>
              Dispatch(p, b) == Out(p.(state := InChunkSize(ChunkSizeStart)), None, Keep, [ChunkComplete], true, Next)
    ensures p.state.body.MessageDone? ==>
              Dispatch(p, b) == Out(p.(state := StartState(p.msg)), None, Keep, [MessageComplete], true, if p.msg.upgrade then Stop else Next)
  {
  }

  lemma LastByteOpen(c: Conf, b: char)
    requires c.halt.Running? && (c.open.None? || c.open == Some(Body)) && Bulk(c.p.state) && c.p.contentLength == 1
    requires c.p.state == InBody(ChunkData)
    ensures At(Run(c, [b]), c.p.(contentLength := 0, state := InBody(ChunkDataAlmostDone)), Some(Body),
               Push(c.trace, Data(Body, [b])), c.count + 1)
  {
    hide Dispatch, Push;
    LastBodyByte(c.p, b);
    RunOne(c, b);
    PushTwice(c.trace, Body, "", [b]);
    assert "" + [b] == [b];
  }

  lemma RunChunk(c: Conf, k: Chunk)
    requires c.halt.Running? && c.open.None? && c.p.state == InChunkSize(ChunkSizeStart) && ChunkOk(k)
    ensures At(Run(c, EncodeChunk(k)), c.p.(contentLength := 0), None, PushAll(c.trace, Events([k])), c.count + |EncodeChunk(k)|)
    ensures Run(c, EncodeChunk(k)).nread <= 1
  {
    hide Dispatch, Apply, Push, Run, EncodeLine;
    var n := |k.data| - 1;
    RunSizeLine(c, k.size, k.ext, |k.data|);
    var line := EncodeLine(k.size, k.ext);
    var c1 := Run(c, line);
    RunData(c1, k.data);
    var c2 := Run(c1, k.data[..n]);
    LastByteOpen(c2, k.data[n]);
    if n > 0 {
      PushTwice(c1.trace, Body, k.data[..n], [k.data[n]]);
    }
    var c3 := Run(c2, [k.data[n]]);
    assert k.data == k.data[..n] + [k.data[n]];
    ChunkTail(c3.p, CR);
    StepFlush(c3, CR, c3.p.(state := InBody(ChunkDataDone)), Body);
    var c4 := Run(c3, [CR]);
    ChunkTail(c4.p, LF);
    StepCall(c4, LF, c4.p.(state := InChunkSize(ChunkSizeStart)), ChunkComplete, true);
    RunAppend(c, line, k.data[..n]);
    RunAppend(c, line + k.data[..n], [k.data[n]]);
    RunAppend(c, line + k.data[..n] + [k.data[n]], [CR]);
    RunAppend(c, line + k.data[..n] + [k.data[n]] + [CR], [LF]);
    assert line + k.data[..n] + [k.data[n]] + [CR] + [LF] == EncodeChunk(k);
    assert Events([k]) == [ChunkHeader(|k.data|), Data(Body, k.data), ChunkComplete] by { assert [k][1..] == []; }
    PushThree(c.trace, ChunkHeader(|k.data|), Data(Body, k.data), ChunkComplete);
  }

  lemma PushThree(t: seq<Event>, a: Event, b: Event, e: Event)
    ensures PushAll(t, [a, b, e]) == Push(Push(Push(t, a), b), e)
  {
    hide Push;
    assert [a, b, e][1..] == [b, e] && [b, e][1..] == [e] && [e][1..] == [];
    assert PushAll(t, [a, b, e]) == PushAll(Push(t, a), [b, e]);
    assert PushAll(Push(t, a), [b, e]) == PushAll(Push(Push(t, a), b), [e]);
    assert PushAll(Push(Push(t, a), b), [e]) == PushAll(Push(Push(Push(t, a), b), e), []);
  }

  /** The end of a message: back to the start state, unless the connection leaves HTTP. */
  lemma StepFinish(c: Conf, b: char)
    requires c.halt.Running? && c.open.None? && c.p.state == InBody(MessageDone)
    ensures var d := Run(c, [b]);
            && d.p == c.p.(state := StartState(c.p.msg)) && d.open.None? && d.trace == Push(c.trace, MessageComplete)
            && d.count == c.count + 1 && d.halt == (if c.p.msg.upgrade then Stopped else Running) && d.nread <= 1
  {
    hide Dispatch, Push;
    ChunkTail(c.p, b);
    RunOne(c, b);
    assert PushAll(c.trace, [MessageComplete]) == PushAll(Push(c.trace, MessageComplete), []);
  }

  lemma EventsCons(ks: seq<Chunk>)
    ensures Events(ks) == if ks == [] then [] else Events([ks[0]]) + Events(ks[1..])
  {
    if ks != [] {
      assert [ks[0]][1..] == [];
    }
  }

  lemma {:induction false} RunChunks(c: Conf, ks: seq<Chunk>)
    requires c.halt.Running? && c.open.None? && c.p.state == InChunkSize(ChunkSizeStart)
    requires forall k <- ks :: ChunkOk(k)
    ensures At(Run(c, Encode(ks)), if ks == [] then c.p else c.p.(contentLength := 0), None,
               PushAll(c.trace, Events(ks)), c.count + |Encode(ks)|)
    ensures ks != [] ==> Run(c, Encode(ks)).nread <= 1
    decreases |ks|
  {
    hide Dispatch, PushAll, Apply, Run, EncodeChunk, Events, ChunkOk;
    EventsCons(ks);
    if ks == [] {
      RunNothing(c);
      PushNone(c.trace);
    } else {
      RunChunk(c, ks[0]);
      var d := Run(c, EncodeChunk(ks[0]));
      RunChunks(d, ks[1..]);
      RunNothing(d);
      RunAppend(c, EncodeChunk(ks[0]), Encode(ks[1..]));
      PushAllAppend(c.trace, Events([ks[0]]), Events(ks[1..]));
    }
  }

  /** All that trailers can change. */
  predicate OnlyFlags(q: Parser, p: Parser) {
    q == p.(state := q.state, headerState := q.headerState, index := q.index, contentLength := q.contentLength,
            msg := p.msg.(chunked := q.msg.chunked, trailing := q.msg.trailing, upgradeFlag := q.msg.upgradeFlag))
  }

  /** The trailers and the blank line: each is reported as a header, and the message is complete. */
  lemma RunTrailers(c: Conf, ts: seq<Line>, eol: string)
    requires c.halt.Running? && c.open.None? && c.p.state == InField(HeaderFieldStart) && c.p.msg.trailing
    requires LinesOk(ts) && IsEol(eol)
    ensures var text := LinesText(ts) + eol;
            var d := Run(c, text);
            && OnlyFlags(d.p, c.p) && d.p.state == StartState(c.p.msg) && d.open.None?
            && d.trace == PushAll(c.trace, LinesEvents(ts) + [ChunkComplete, MessageComplete])
            && d.count == c.count + |text| && d.halt == (if c.p.msg.upgrade then Stopped else Running) && d.nread <= 1
  {
    hide Dispatch, Push, PushAll, Apply, Run, LinesOk, LinesText, LinesEvents, LengthOf, AnyChunked, AnyUpgrade, IsEol;
    RunLines(c, ts);
    var c1 := Run(c, LinesText(ts));
    var c2 := RunBlank(c1, eol);
    BlankDispatch(c2.p);
    var c3 := StepRedo(c2, [LF], c2.p.(state := InBody(MessageDone)), [ChunkComplete]);
    StepFinish(c3, LF);
    RunAppend(c, LinesText(ts), eol);
    PushAllTwo(c.trace, LinesEvents(ts), ChunkComplete, MessageComplete);
  }

  /** Chunked decoding inverts chunked encoding: for every list of nonempty chunks, however their sizes
      are spelt and whatever extensions they carry, each chunk is announced with its size, delivered
      whole and closed; the last chunk brings its trailers and ends the message once; and the parser is
      back at its start. */
  lemma ChunkedRoundTrip(c: Conf, ks: seq<Chunk>, last: string, ext: string, ts: seq<Line>, eol: string)
    requires c.halt.Running? && c.open.None? && c.p.state == InChunkSize(ChunkSizeStart)
    requires (forall k <- ks :: ChunkOk(k)) && HexOf(last, 0) && ExtOk(ext) && LinesOk(ts) && IsEol(eol)
    ensures var bytes := Encode(ks) + EncodeLine(last, ext) + (LinesText(ts) + eol);
            var d := Run(c, bytes);
            && OnlyFlags(d.p, c.p) && d.p.state == StartState(c.p.msg) && d.open.None?
            && d.trace == PushAll(c.trace, Events(ks) + ([ChunkHeader(0)] + (LinesEvents(ts) + [ChunkComplete, MessageComplete])))
            && d.count == c.count + |bytes| && d.halt == (if c.p.msg.upgrade then Stopped else Running) && d.nread <= 1
  {
    hide Dispatch, Push, Apply, Run, EncodeLine, LinesText, LinesEvents, LinesOk, IsEol;
    RunChunks(c, ks);
    var c1 := Run(c, Encode(ks));
    RunSizeLine(c1, last, ext, 0);
    var c2 := Run(c1, EncodeLine(last, ext));
    RunTrailers(c2, ts, eol);
    RunAppend(c, Encode(ks), EncodeLine(last, ext));
    RunAppend(c, Encode(ks) + EncodeLine(last, ext), LinesText(ts) + eol);
    var tail := LinesEvents(ts) + [ChunkComplete, MessageComplete];
    assert PushAll(c1.trace, [ChunkHeader(0)] + tail) == PushAll(Push(c1.trace, ChunkHeader(0)), tail) by {
      assert ([ChunkHeader(0)] + tail)[1..] == tail;
    }
    PushAllAppend(c.trace, Events(ks), [ChunkHeader(0)] + tail);
  }

  lemma LastByteClosed(c: Conf, b: char)
    requires c.halt.Running? && (c.open.None? || c.open == Some(Body)) && c.p.state == InBody(BodyIdentity) && c.p.contentLength == 1
    ensures var d := Run(c, [b]);
            && d.p == c.p.(contentLength := 0, state := StartState(c.p.msg)) && d.open.None?
            && d.trace == Push(Push(c.trace, Data(Body, [b])), MessageComplete)
            && d.count == c.count + 1 && d.halt == (if c.p.msg.upgrade then Stopped else Running) && d.nread <= 1
  {
    hide Dispatch, Push, Run;
    LastBodyByte(c.p, b);
    RunStep(c, [b]);
    var d := Apply(c, Dispatch(c.p, b), b);
    assert d.trace == Push(c.trace, Data(Body, [b])) by {
      PushTwice(c.trace, Body, "", [b]);
      assert "" + [b] == [b];
    }
    StepFinish(d, b);
  }

  /** A body with a Content-Length delivers exactly that many bytes, and then the message is complete. */
  lemma IdentityRoundTrip(c: Conf, data: string)
    requires c.halt.Running? && c.open.None? && c.p.state == InBody(BodyIdentity) && 0 < |data| == c.p.contentLength
    ensures var d := Run(c, data);
            && d.p == c.p.(contentLength := 0, state := StartState(c.p.msg)) && d.open.None?
            && d.trace == Push(Push(c.trace, Data(Body, data)), MessageComplete)
            && d.count == c.count + |data| && d.halt == (if c.p.msg.upgrade then Stopped else Running) && d.nread <= 1
  {
    hide Dispatch, Push, Apply, Run;
    var n := |data| - 1;
    RunData(c, data);
    LastByteClosed(Run(c, data[..n]), data[n]);
    if n > 0 {
      PushTwice(c.trace, Body, data[..n], [data[n]]);
    }
    RunAppend(c, data[..n], [data[n]]);
    assert data[..n] + [data[n]] == data;
  }
}
