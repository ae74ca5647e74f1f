/** The two URL readers of the parser agree: a path that a request line may have is one that can be split into fields. */
module TargetUrls {
  import opened Chars
  import opened Options
  import opened ParserTypes
  import opened RequestTargets
  import U = Url
  import F = UrlForms

  /** The two readers are in the same part of a path form. */
  predicate Same(s: Spot, q: U.UrlState) {
    match q
    case InPath => s == In(ReqPath)
    case QueryStart => s == In(ReqQueryStringStart)
    case InQuery => s == In(ReqQueryString) || s == In(ReqQueryStringStart)
    case FragmentStart => s == In(ReqFragmentStart)
    case InFragment => s == In(ReqFragment)
    case UrlDead => s == Off
    case _ => false
  }

  predicate IsPathStart(t: string) {
    t != "" && (t[0] == '/' || t[0] == '*')
  }

  lemma SameStep(s: Spot, q: U.UrlState, c: char)
    requires Same(s, q)
    ensures Same(Move(false, s, c), U.UrlNext(q, c))
  {
    hide IsUrlChar;
    WhiteIsNoUrlChar();
  }

  lemma WhiteIsNoUrlChar()
    ensures !IsUrlChar(' ') && !IsUrlChar(CR) && !IsUrlChar(LF) && !IsUrlChar('?') && !IsUrlChar('#')
  {
  }

  lemma SameFirst(c: char)
    requires c == '/' || c == '*'
    ensures Same(Move(false, Ahead, c), U.UrlNext(U.BeforeUrl, c))
  {
  }

  /** Byte by byte, both readers go the same way, and neither sees a server. */
  lemma {:induction false} SameRun(t: string)
    requires IsPathStart(t)
    ensures Same(Spell(false, Ahead, t), U.UrlRun(U.BeforeUrl, t))
    ensures var own := U.UrlOwners(U.BeforeUrl, t); Some(U.Schema) !in own && Some(U.Host) !in own && Some(U.Port) !in own
    decreases |t|
  {
    hide Move, U.UrlNext;
    var n := |t| - 1;
    if n == 0 {
      assert t[..0] == "";
      SameFirst(t[0]);
    } else {
      assert t[..n][0] == t[0];
      SameRun(t[..n]);
      SameStep(Spell(false, Ahead, t[..n]), U.UrlRun(U.BeforeUrl, t[..n]), t[n]);
    }
  }

  /** What starts like a path is taken for a request target if and only if the URL splitter accepts it. */
  lemma PathTargetsAreUrls(t: string)
    requires IsPathStart(t)
    ensures IsTarget(t, false) <==> U.Accepted(t, false)
  {
    hide Spell, U.UrlRun, U.UrlOwners, IsTarget, U.ServerOk, U.PortOk, U.Owners, U.FoundAt;
    SameRun(t);
    SpellExact(false, t);
    U.OwnersWithoutServer(t, false);
    F.NoServerNeeded(U.UrlOwners(U.BeforeUrl, t), t, U.ServerPartStart(U.FoundAt(U.BeforeUrl, t)));
  }
}
