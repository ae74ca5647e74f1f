/** The parser as the object that callers hold. */
module HttpParserObject {
  import opened ParserTypes
  import opened ParserRun
  import opened Execute
  import opened ParserCalls

  class HttpParser {
    var p: Parser
    var nread: nat
    /** Every callback made so far. */
    var calls: seq<Event>

    /** What a caller can tell: data callbacks of one kind that follow each other are one. */
    ghost function View(): Object
      reads this
    {
      Object(p, Counted(p, nread), Merge(calls))
    }

    constructor (junk: Parser, kind: Kind)
      ensures p == Init(junk, kind) && nread == 0 && calls == []
      ensures View() == Object(Init(junk, kind), 0, []) && Sane(View())
    {
      p, nread, calls := Init(junk, kind), 0, [];
      InitSane(junk, kind);
    }

    /** `http_parser_execute`. A parser in error does nothing; an empty buffer signals the end of the
        stream; any other buffer is parsed. */
    method Execute(data: string) returns (consumed: nat)
      requires Sane(View())
      modifies this
      ensures Sane(View()) && (View(), consumed) == Executed(old(View()), data)
      ensures !old(p).errno.OK? ==> consumed == 0 && p == old(p) && nread == old(nread) && calls == old(calls)
      ensures old(p).errno.OK? && data == "" && old(p).state == InBody(BodyIdentityEof) ==>
                consumed == 0 && p == old(p) && calls == old(calls) + [MessageComplete]
      ensures old(p).errno.OK? && data == "" && BetweenMessages(old(p).state) ==>
                consumed == 0 && p == old(p) && calls == old(calls)
      ensures old(p).errno.OK? && data == "" && old(p).state != InBody(BodyIdentityEof) && !BetweenMessages(old(p).state) ==>
                consumed == 1 && p == old(p).(errno := INVALID_EOF_STATE) && calls == old(calls)
      ensures old(p).errno.OK? && data != "" ==>
                Refines(Call(old(p), old(nread), Merge(old(calls)), data), data, p, nread, calls, consumed)
    {
      hide Run, Merge, Entry, Valid;
      CallStaysSane(View(), data);
      SaneIsValid(View());
      if !p.errno.OK? {
        return 0;
      }
      if data == "" {
        if p.state == InBody(BodyIdentityEof) {
          MergeSnoc(calls, MessageComplete);
          calls := calls + [MessageComplete];
          return 0;
        } else if BetweenMessages(p.state) {
          return 0;
        } else {
          p := p.(errno := INVALID_EOF_STATE);
          return 1;
        }
      }
      EntryCounts(p, nread, Merge(calls));
      p, nread, calls, consumed := ExecuteBuffer(p, nread, calls, data);
    }

    /** One call after the other. */
    method ExecuteAll(buffers: seq<string>)
      requires Sane(View())
      modifies this
      ensures Sane(View()) && View() == ExecutedAll(old(View()), buffers)
    {
      hide Executed, Sane;
      var i := 0;
      while i < |buffers|
        invariant 0 <= i <= |buffers| && Sane(View())
        invariant ExecutedAll(View(), buffers[i..]) == ExecutedAll(old(View()), buffers)
      {
        assert buffers[i..][0] == buffers[i] && buffers[i..][1..] == buffers[i + 1..];
        var _ := Execute(buffers[i]);
        i := i + 1;
      }
    }
  }

  lemma SaneIsValid(s: Object)
    requires Sane(s)
    ensures Valid(s.p)
  {
  }

  lemma EntryCounts(p: Parser, nread: nat, trace: seq<Event>)
    ensures Entry(p, Counted(p, nread), trace) == Entry(p, nread, trace)
  {
  }
}
