/** The request method is read exactly. */
module Methods {
  import opened Chars
  import opened Options
  import opened ParserTypes
  import opened Transition
  import opened ParserRun
  import opened Walk

  /** The method under match after `i` letters of method `m`. */
  function Lead(m: Verb, i: nat): Verb {
    match m
    case CHECKOUT => if i < 2 then CONNECT else m
    case COPY => if i < 3 then CONNECT else m
    case MOVE => if i < 2 then MKCOL else m
    case MERGE => if i < 2 then MKCOL else m
    case MSEARCH => if i < 2 then MKCOL else m
    case MKACTIVITY => if i < 3 then MKCOL else m
    case PUT => if i < 2 then POST else m
    case PATCH => if i < 2 then POST else m
    case PROPFIND => if i < 2 then POST else m
    case PROPPATCH => if i < 2 then POST else if i < 5 then PROPFIND else m
    case UNSUBSCRIBE => if i < 3 then UNLOCK else m
    case _ => m
  }

  lemma LeadStep(m: Verb, i: nat)
    requires 1 <= i < |VerbString(m)|
    ensures MethodByte(Lead(m, i), i, VerbString(m)[i]) == On(Lead(m, i + 1))
  {
  }

  lemma LeadLast(m: Verb)
    ensures |VerbString(m)| >= 3 && Lead(m, |VerbString(m)|) == m
    ensures MethodByte(m, |VerbString(m)|, ' ') == Whole
    ensures FirstLetter(VerbString(m)[0]) == Some(Lead(m, 1)) && IsAlpha(VerbString(m)[0])
  {
  }

  predicate Letters(m: Verb, i: nat, c: char) {
    var r := MethodByte(m, i, c);
    && (r.On? ==> i < |VerbString(r.verb)| && VerbString(r.verb)[..i + 1] == VerbString(m)[..i] + [c] && c != ' ')
    && (r.Whole? <==> c == ' ' && i == |VerbString(m)|)
  }

  lemma SwitchingLetters(m: Verb, i: nat, c: char)
    requires 1 <= i <= |VerbString(m)| && MethodByte(m, i, c).On? && MethodByte(m, i, c).verb != m
    ensures var v := VerbString(MethodByte(m, i, c).verb);
            i < |v| && v[..i + 1] == VerbString(m)[..i] + [c] && c != ' '
  {
    match m
    case CONNECT => SameStart(m, MethodByte(m, i, c).verb, i, c);
    case MKCOL => SameStart(m, MethodByte(m, i, c).verb, i, c);
    case POST => SameStart(m, MethodByte(m, i, c).verb, i, c);
    case UNLOCK => SameStart(m, MethodByte(m, i, c).verb, i, c);
    case PROPFIND => SameStart(m, MethodByte(m, i, c).verb, i, c);
    case _ =>
  }

  lemma SameStart(m: Verb, v: Verb, i: nat, c: char)
    requires i <= |VerbString(m)| && i < |VerbString(v)| && VerbString(v)[i] == c
    requires forall k :: 0 <= k < i ==> VerbString(v)[k] == VerbString(m)[k]
    ensures VerbString(v)[..i + 1] == VerbString(m)[..i] + [c]
  {
    hide VerbString;
  }

  lemma NoSpaceInMethod(m: Verb, i: nat)
    requires i < |VerbString(m)|
    ensures VerbString(m)[i] != ' '
  {
  }

  /** The letters read so far are the first letters of the method under match. */
  lemma LettersStep(m: Verb, i: nat, c: char)
    requires 1 <= i <= |VerbString(m)|
    ensures Letters(m, i, c)
  {
    hide VerbString;
    var r := MethodByte(m, i, c);
    if r.On? && r.verb != m {
      SwitchingLetters(m, i, c);
    } else if r.On? {
      OnSame(m, i, c);
      NoSpaceInMethod(m, i);
    }
  }

  lemma OnSame(m: Verb, i: nat, c: char)
    requires MethodByte(m, i, c) == On(m)
    ensures i < |VerbString(m)| && VerbString(m)[i] == c
  {
    hide VerbString;
  }

  lemma MethodDispatch(p: Parser, c: char)
    ensures p.state == Beginning(StartReq) && IsAlpha(c) && FirstLetter(c).Some? ==>
              Dispatch(p, c) == Go(Method(p, FirstLetter(c).value, 1, RequestLine(ReqMethod)))
    ensures p.state == Beginning(StartReq) && !(IsAlpha(c) && FirstLetter(c).Some?) ==> Dispatch(p, c).ctl.Fail?
    ensures p.state == RequestLine(ReqMethod) ==>
              Dispatch(p, c) == match MethodByte(p.msg.verb, p.index, c)
                                case On(m) => Go(p.(index := p.index + 1, msg := p.msg.(verb := m)))
                                case Whole => Go(p.(index := p.index + 1, state := RequestLine(ReqSpacesBeforeUrl)))
                                case Wrong(e) => Bad(p, e)
  {
    hide MethodByte, FirstLetter;
  }

  /** The parser has read the letters `s` of a method. */
  predicate Reading(p: Parser, s: string) {
    && p.state == RequestLine(ReqMethod) && p.index == |s| && 1 <= |s| <= |VerbString(p.msg.verb)|
    && VerbString(p.msg.verb)[..|s|] == s
  }

  lemma FirstLetterMatches(c: char)
    requires FirstLetter(c).Some?
    ensures VerbString(FirstLetter(c).value)[..1] == [c]
  {
  }

  /** While a method is read, its bytes are the first letters of the method under match. */
  lemma {:induction false} RunLetters(c: Conf, s: string)
    requires c.halt.Running? && c.open.None? && c.p.state == Beginning(StartReq) && s != "" && ' ' !in s
    ensures var d := Run(c, s);
            d.halt.Failed? || (At(d, d.p, None, c.trace, c.count + |s|) && Reading(d.p, s))
    decreases |s|
  {
    hide Dispatch, Apply, Push, Run, MethodByte, VerbString, FirstLetter, Letters;
    var n := |s| - 1;
    var x := s[n];
    assert x in s;
    if n == 0 {
      assert s == [x];
      MethodDispatch(c.p, x);
      if Dispatch(c.p, x).ctl.Fail? {
        RunOne(c, x);
        ApplyNext(c, x);
      } else {
        FirstLetterMatches(x);
        StepGo(c, x, Dispatch(c.p, x).p);
      }
    } else {
      var t := s[..n];
      assert s == t + [x];
      RunLetters(c, t);
      RunAppend(c, t, [x]);
      var d := Run(c, t);
      if d.halt.Failed? {
        RunHalted(d, [x]);
      } else {
        MethodDispatch(d.p, x);
        var r := MethodByte(d.p.msg.verb, d.p.index, x);
        LettersMean(d.p.msg.verb, d.p.index, x);
        if r.On? {
          StepGo(d, x, Dispatch(d.p, x).p);
        } else {
          assert r.Wrong?;
          RunOne(d, x);
          ApplyNext(d, x);
        }
      }
    }
  }

  lemma LettersMean(m: Verb, i: nat, c: char)
    requires 1 <= i <= |VerbString(m)|
    ensures var r := MethodByte(m, i, c);
            && (r.On? ==> i < |VerbString(r.verb)| && VerbString(r.verb)[..i + 1] == VerbString(m)[..i] + [c])
            && (r.Whole? <==> c == ' ' && i == |VerbString(m)|) && (c == ' ' ==> !r.On?)
  {
    hide MethodByte, VerbString;
    LettersStep(m, i, c);
  }

  lemma {:induction false} RunSpelling(c: Conf, m: Verb, i: nat)
    requires c.halt.Running? && c.open.None? && c.p.state == Beginning(StartReq) && 1 <= i <= |VerbString(m)|
    ensures At(Run(c, VerbString(m)[..i]), Method(c.p, Lead(m, i), i, RequestLine(ReqMethod)), None, c.trace, c.count + i)
    decreases i
  {
    hide Dispatch, Apply, Push, Run, MethodByte, VerbString, FirstLetter, Lead;
    var s := VerbString(m)[..i];
    if i == 1 {
      LeadLast(m);
      assert s == [VerbString(m)[0]];
      MethodDispatch(c.p, s[0]);
      StepGo(c, s[0], Method(c.p, Lead(m, 1), 1, RequestLine(ReqMethod)));
    } else {
      var t := VerbString(m)[..i - 1];
      var x := VerbString(m)[i - 1];
      assert s == t + [x];
      RunSpelling(c, m, i - 1);
      var d := Run(c, t);
      LeadStep(m, i - 1);
      MethodDispatch(d.p, x);
      StepGo(d, x, Method(c.p, Lead(m, i), i, RequestLine(ReqMethod)));
      RunAppend(c, t, [x]);
    }
  }

  /** A word followed by a space is taken for method `m` if and only if it is the name of `m`. */
  lemma MethodExact(c: Conf, s: string, m: Verb)
    requires c.halt.Running? && c.open.None? && c.p.state == Beginning(StartReq) && ' ' !in s
    ensures var d := Run(c, s + " ");
            d.halt.Running? && d.p.state == RequestLine(ReqSpacesBeforeUrl) && d.p.msg.verb == m <==> s == VerbString(m)
  {
    hide Dispatch, Apply, Push, Run, MethodByte, VerbString, FirstLetter, Lead, IsAlpha, Method;
    assert " " == [' '];
    LeadLast(m);
    RunAppend(c, s, " ");
    if s == "" {
      MethodDispatch(c.p, ' ');
      SpaceIsNoLetter();
      assert s + " " == " ";
      RunOne(c, ' ');
      ApplyNext(c, ' ');
    } else {
      RunLetters(c, s);
      var d := Run(c, s);
      if s == VerbString(m) {
        RunSpelling(c, m, |s|);
        assert VerbString(m)[..|s|] == s;
        MethodParts(c.p, m, |s|);
      }
      if d.halt.Running? {
        MethodDispatch(d.p, ' ');
        LettersMean(d.p.msg.verb, d.p.index, ' ');
        assert |s| == |VerbString(d.p.msg.verb)| ==> s == VerbString(d.p.msg.verb);
        if MethodByte(d.p.msg.verb, d.p.index, ' ').Whole? {
          StepGo(d, ' ', Dispatch(d.p, ' ').p);
        } else {
          RunOne(d, ' ');
          ApplyNext(d, ' ');
        }
      } else {
        RunHalted(d, " ");
      }
    }
  }

  lemma SpaceIsNoLetter()
    ensures !IsAlpha(' ')
  {
  }

  lemma MethodParts(p: Parser, m: Verb, i: nat)
    ensures Method(p, m, i, RequestLine(ReqMethod)).msg.verb == m
  {
  }
}
