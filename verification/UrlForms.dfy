/** The other forms of a URL: a path without a server, and the server that CONNECT names; and the bytes that each field
    of an accepted URL is made of. */
module UrlForms {
  import opened Chars
  import opened Options
  import opened Url
  import opened UrlRoundTrip

  // A path, or `*`, with a query and a fragment.

  predicate IsPathForm(x: Parts) {
    WellFormedTail(x) && x.path != "" && (x.path[0] == '/' || x.path[0] == '*')
  }

  lemma PathStarts(c: char)
    requires c == '/' || c == '*'
    ensures UrlNext(BeforeUrl, c) == InPath
  {
  }

  lemma NoServerNeeded(own: seq<Owner>, b: string, h: HostState)
    requires |own| == |b| && Some(Schema) !in own && Some(Host) !in own && Some(Port) !in own
    ensures ServerOk(own, b, h) && PortOk(own, b)
  {
    hide HostRun, FitsPort;
    NoSpan(own, Host);
    NoSpan(own, Port);
  }

  /** A path, or an asterisk, with or without a query and a fragment is accepted without schema and server, and every byte
      of it goes back to the part it was written for. */
  lemma PathRoundTrip(x: Parts)
    requires IsPathForm(x)
    ensures Accepted(Tail(x), false) && Owners(Tail(x), false) == TailLayout(x)
  {
    hide UrlRun, UrlOwners, FoundAt, Owners, TailLayout, Tail, ServerOk, PortOk, WellFormedTail;
    PathStarts(x.path[0]);
    var q := TailLeads(BeforeUrl, x);
    LayoutFields(x);
    var b := Tail(x);
    OwnersWithoutServer(b, false);
    NoServerNeeded(TailLayout(x), b, ServerPartStart(FoundAt(BeforeUrl, b)));
  }

  // A server.

  /** CONNECT names a host and a port, and nothing else. */
  predicate IsServerForm(x: Server) {
    WellFormedServer(x) && x.userinfo == "" && x.port != ""
  }

  lemma ServerLayoutIs(x: Server)
    requires IsServerForm(x)
    ensures var a := HostLayout(x.host) + [None];
            ServerLayout(x) == a + Fill(Port, |x.port|) && ServerPart(x) == (HostPart(x.host) + ":") + x.port && |a| == |HostPart(x.host) + ":"|
            && Some(Port) !in a && Some(Host) in a && forall f :: Some(f) in a ==> f == Host
  {
    hide Fill, WellFormedServer;
    FillLength(Host, |x.host.text|);
    HostIsThere(x);
  }

  lemma HostIsThere(x: Server)
    requires WellFormedServer(x)
    ensures Some(Host) in HostLayout(x.host)
  {
    var i := if x.host.Name? then 0 else 1;
    assert HostLayout(x.host)[i] == Some(Host);
  }

  lemma OnlyThose(x: Server)
    requires IsServerForm(x)
    ensures OnlyHostAndPort(ServerLayout(x)) && PortOk(ServerLayout(x), ServerPart(x)) && |ServerLayout(x)| == |ServerPart(x)|
  {
    hide Fill, HostLayout, HostPart, ServerLayout, ServerPart, FitsPort;
    ServerLayoutIs(x);
    var a, n := HostLayout(x.host) + [None], |x.port|;
    var own := a + Fill(Port, n);
    FillLength(Port, n);
    assert a + Fill(Port, n) + [] == own;
    FillSpan(a, Port, n, []);
    assert own[|a|] == Some(Port);
    assert forall f :: Some(f) in a || Some(f) in Fill(Port, n) <==> Some(f) in own;
    SpanUnique(own, Port, |a|, |a| + n);
    assert ServerPart(x)[|a|..|a| + n] == x.port;
  }

  /** What CONNECT asks for is accepted if it is a host and a port, which get all of its bytes but the delimiters. */
  lemma ConnectRoundTrip(x: Server)
    requires IsServerForm(x)
    ensures Accepted(ServerPart(x), true) && Owners(ServerPart(x), true) == ServerLayout(x)
  {
    hide UrlRun, UrlOwners, FoundAt, HostRun, HostOwners, Owners, Fill, ServerLayout, ServerPart, OnlyHostAndPort,
      PortOk, IsSpan, WellFormedServer;
    var b := ServerPart(x);
    ServerLeads(x);
    var q := ServerPartLeads(x);
    OnlyThose(x);
    ServerNotEmpty(x);
    assert b == "" + b + "";
    assert Fill(Host, |b|) == [] + Fill(Host, |b|) + [];
    Replaced(b, true, "", b, "", [], ServerLayout(x), []);
    assert [] + ServerLayout(x) + [] == ServerLayout(x);
    assert b[0..|b|] == b;
    SpanUnique(UrlOwners(ServerStart, b), Host, 0, |b|);
    FillLength(Host, |b|);
  }

  // The bytes of each field.

  predicate IsDelimiter(c: char) {
    c == ':' || c == '/' || c == '?' || c == '#' || c == '@' || c == '[' || c == ']'
  }

  /** The bytes that a field, or a place between fields, may have. */
  predicate MayOwn(f: Owner, c: char) {
    match f
    case None => IsDelimiter(c)
    case Some(Schema) => IsAlpha(c)
    case Some(Userinfo) => IsUserinfoChar(c)
    case Some(Host) => IsHostChar(c) || IsHex(c) || c == ':'
    case Some(Port) => IsNum(c)
    case Some(Path) => IsUrlChar(c)
    case Some(Query) => IsUrlChar(c) || c == '?'
    case Some(Fragment) => IsUrlChar(c) || c == '?' || c == '#'
  }

  lemma UrlByteOwned(s: UrlState, c: char)
    requires !UrlNext(s, c).UrlDead?
    ensures FieldOf(UrlNext(s, c)) != Some(Host) ==> MayOwn(FieldOf(UrlNext(s, c)), c)
  {
  }

  lemma HostByteOwned(s: HostState, c: char)
    requires !HostNext(s, c).HostDead?
    ensures MayOwn(HostFieldOf(HostNext(s, c)), c)
  {
  }

  lemma UrlOwned(s: UrlState, b: string, i: nat)
    requires !UrlRun(s, b).UrlDead? && i < |b| && UrlOwners(s, b)[i] != Some(Host)
    ensures MayOwn(UrlOwners(s, b)[i], b[i])
  {
    hide UrlOwners, UrlNext, MayOwn;
    UrlOwnersAt(s, b, i);
    var t := b[..i + 1];
    assert t[..i] == b[..i] && t[i] == b[i];
    if UrlRun(s, t).UrlDead? { DeadForever(s, b, i + 1); }
    UrlByteOwned(UrlRun(s, b[..i]), b[i]);
  }

  lemma HostOwned(s: HostState, b: string, i: nat)
    requires !HostRun(s, b).HostDead? && i < |b|
    ensures MayOwn(HostOwners(s, b)[i], b[i])
  {
    hide HostOwners, HostNext, MayOwn;
    HostOwnersAt(s, b, i);
    var t := b[..i + 1];
    assert t[..i] == b[..i] && t[i] == b[i];
    if HostRun(s, t).HostDead? { HostDeadForever(s, b, i + 1); }
    HostByteOwned(HostRun(s, b[..i]), b[i]);
  }

  /** In an accepted URL every field is made of its own kind of bytes, and the bytes of no field are delimiters. */
  lemma BytesOfTheirField(b: string, connect: bool, lo: nat, hi: nat, i: nat)
    requires Accepted(b, connect) && ServerAt(b, connect, lo, hi) && i < |b|
    ensures MayOwn(Owners(b, connect)[i], b[i])
  {
    hide UrlRun, UrlOwners, Owners, HostRun, HostOwners, FoundAt, OwnerAt, OnlyHostAndPort, PortOk, MayOwn, UrlStart, ServerPartStart;
    var s, own := UrlStart(connect), UrlOwners(UrlStart(connect), b);
    if Some(Host) !in own {
      OwnersWithoutServer(b, connect);
      UrlOwned(s, b, i);
    } else {
      SpliceAt(b, connect, lo, hi, i);
      if lo <= i < hi {
        var h := ServerPartStart(FoundAt(s, b));
        HostOwned(h, b[lo..hi], i - lo);
      } else {
        UrlOwned(s, b, i);
      }
    }
  }
}
