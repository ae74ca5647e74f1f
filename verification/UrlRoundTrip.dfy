/** Writing an absolute URL out of its parts and splitting it gives the parts back. */
module UrlRoundTrip {
  import opened Chars
  import opened Options
  import opened Url

  datatype HostText = Name(text: string) | Address6(text: string)

  /** The server part; an empty string stands for a part that is left out with its delimiter. */
  datatype Server = Server(userinfo: string, host: HostText, port: string)

  datatype Parts = Parts(schema: string, server: Server, path: string, query: string, fragment: string)

  predicate WellFormedServer(x: Server) {
    && (forall c <- x.userinfo :: IsUserinfoChar(c))
    && x.host.text != ""
    && (forall c <- x.host.text :: if x.host.Name? then IsHostChar(c) else IsHex(c) || c == ':' || c == '.')
    && FitsPort(x.port)
  }

  predicate WellFormedTail(x: Parts) {
    && (forall c <- x.path :: IsUrlChar(c))
    && (forall c <- x.query :: IsUrlChar(c) || c == '?')
    && (x.fragment != "" ==>
          && x.fragment[0] != '#' && (x.path != "" || x.query != "")
          && forall c <- x.fragment :: IsUrlChar(c) || c == '?' || c == '#')
  }

  predicate WellFormed(x: Parts) {
    && x.schema != "" && (forall c <- x.schema :: IsAlpha(c))
    && WellFormedServer(x.server)
    && WellFormedTail(x) && (x.path != "" ==> x.path[0] == '/')
  }

  function HostPart(h: HostText): string {
    if h.Name? then h.text else "[" + h.text + "]"
  }

  function PortPart(port: string): string {
    if port == "" then "" else ":" + port
  }

  function ServerPart(x: Server): string {
    (if x.userinfo == "" then "" else x.userinfo + "@") + HostPart(x.host) + PortPart(x.port)
  }

  function Tail(x: Parts): string {
    x.path + (if x.query == "" then "" else "?" + x.query) + (if x.fragment == "" then "" else "#" + x.fragment)
  }

  function Render(x: Parts): string {
    x.schema + "://" + ServerPart(x.server) + Tail(x)
  }

  function Fill(f: UrlField, n: nat): seq<Owner> {
    seq(n, _ => Some(f))
  }

  function HostLayout(h: HostText): seq<Owner> {
    if h.Name? then Fill(Host, |h.text|) else [None] + Fill(Host, |h.text|) + [None]
  }

  function ServerLayout(x: Server): seq<Owner> {
    (if x.userinfo == "" then [] else Fill(Userinfo, |x.userinfo|) + [None]) + HostLayout(x.host)
    + (if x.port == "" then [] else [None] + Fill(Port, |x.port|))
  }

  function TailLayout(x: Parts): seq<Owner> {
    Fill(Path, |x.path|) + (if x.query == "" then [] else [None] + Fill(Query, |x.query|))
    + (if x.fragment == "" then [] else [None] + Fill(Fragment, |x.fragment|))
  }

  /** The field each byte of `Render(x)` was written for. */
  function Layout(x: Parts): seq<Owner> {
    Fill(Schema, |x.schema|) + [None, None, None] + ServerLayout(x.server) + TailLayout(x)
  }

  // Segments of the first transition function.

  predicate Leads(s: UrlState, t: string, q: UrlState, own: seq<Owner>, at: bool) {
    UrlRun(s, t) == q && UrlOwners(s, t) == own && FoundAt(s, t) == at
  }

  lemma {:induction false} LeadsOn(s: UrlState, a: string, q: UrlState, own: seq<Owner>, at: bool, b: string)
    requires Leads(s, a, q, own, at)
    ensures Leads(s, a + b, UrlRun(q, b), own + UrlOwners(q, b), at || FoundAt(q, b))
    decreases |b|
  {
    if b == "" {
      assert a + b == a;
    } else {
      var m := |b| - 1;
      LeadsOn(s, a, q, own, at, b[..m]);
      assert (a + b)[..|a + b| - 1] == a + b[..m];
      assert (a + b)[|a + b| - 1] == b[m];
    }
  }

  lemma LeadsTo(s: UrlState, a: string, q: UrlState, own: seq<Owner>, at: bool, b: string, r: UrlState, own2: seq<Owner>, at2: bool)
    requires Leads(s, a, q, own, at) && Leads(q, b, r, own2, at2)
    ensures Leads(s, a + b, r, own + own2, at || at2)
  {
    hide UrlRun, UrlOwners, FoundAt;
    LeadsOn(s, a, q, own, at, b);
  }

  lemma LeadsOne(s: UrlState, c: char)
    ensures Leads(s, [c], UrlNext(s, c), [FieldOf(UrlNext(s, c))], UrlNext(s, c).ServerWithAt?)
  {
    assert [c][..0] == "";
    assert UrlRun(s, [c]) == UrlNext(s, c);
  }

  /** Bytes of one field. */
  lemma {:induction false} LeadsThrough(s: UrlState, t: string, q: UrlState, f: UrlField)
    requires t != "" && UrlNext(s, t[0]) == q && FieldOf(q) == Some(f) && !q.ServerWithAt?
    requires forall i :: 1 <= i < |t| ==> UrlNext(q, t[i]) == q
    ensures Leads(s, t, q, Fill(f, |t|), false)
    decreases |t|
  {
    var m := |t| - 1;
    if m == 0 {
      LeadsOne(s, t[0]);
      assert t == [t[0]];
    } else {
      LeadsThrough(s, t[..m], q, f);
      LeadsOne(q, t[m]);
      LeadsTo(s, t[..m], q, Fill(f, m), false, [t[m]], q, [Some(f)], false);
      assert t == t[..m] + [t[m]];
      assert Fill(f, |t|) == Fill(f, m) + [Some(f)];
    }
  }

  lemma LeadsNowhere(s: UrlState)
    ensures Leads(s, "", s, [], false)
  {
  }

  // Segments of the second.

  predicate HostLeads(s: HostState, t: string, q: HostState, own: seq<Owner>) {
    HostRun(s, t) == q && HostOwners(s, t) == own
  }

  lemma {:induction false} HostLeadsOn(s: HostState, a: string, q: HostState, own: seq<Owner>, b: string)
    requires HostLeads(s, a, q, own)
    ensures HostLeads(s, a + b, HostRun(q, b), own + HostOwners(q, b))
    decreases |b|
  {
    if b == "" {
      assert a + b == a;
    } else {
      var m := |b| - 1;
      HostLeadsOn(s, a, q, own, b[..m]);
      assert (a + b)[..|a + b| - 1] == a + b[..m];
      assert (a + b)[|a + b| - 1] == b[m];
    }
  }

  lemma HostLeadsTo(s: HostState, a: string, q: HostState, own: seq<Owner>, b: string, r: HostState, own2: seq<Owner>)
    requires HostLeads(s, a, q, own) && HostLeads(q, b, r, own2)
    ensures HostLeads(s, a + b, r, own + own2)
  {
    hide HostRun, HostOwners;
    HostLeadsOn(s, a, q, own, b);
  }

  lemma HostLeadsOne(s: HostState, c: char)
    ensures HostLeads(s, [c], HostNext(s, c), [HostFieldOf(HostNext(s, c))])
  {
    assert [c][..0] == "";
    assert HostRun(s, [c]) == HostNext(s, c);
  }

  lemma {:induction false} HostLeadsThrough(s: HostState, t: string, q: HostState, f: UrlField)
    requires t != "" && HostNext(s, t[0]) == q && HostFieldOf(q) == Some(f)
    requires forall i :: 1 <= i < |t| ==> HostNext(q, t[i]) == q
    ensures HostLeads(s, t, q, Fill(f, |t|))
    decreases |t|
  {
    var m := |t| - 1;
    if m == 0 {
      HostLeadsOne(s, t[0]);
      assert t == [t[0]];
    } else {
      HostLeadsThrough(s, t[..m], q, f);
      HostLeadsOne(q, t[m]);
      HostLeadsTo(s, t[..m], q, Fill(f, m), [t[m]], q, [Some(f)]);
      assert t == t[..m] + [t[m]];
      assert Fill(f, |t|) == Fill(f, m) + [Some(f)];
    }
  }

  lemma HostLeadsNowhere(s: HostState)
    ensures HostLeads(s, "", s, [])
  {
  }

  // The pieces of a URL.

  lemma SchemaLeads(t: string)
    requires t != "" && forall c <- t :: IsAlpha(c)
    ensures Leads(BeforeUrl, t + "://", ServerStart, Fill(Schema, |t|) + [None, None, None], false)
  {
    hide Leads;
    forall i | 0 <= i < |t|
      ensures UrlNext(BeforeUrl, t[i]) == InSchema && UrlNext(InSchema, t[i]) == InSchema
    {
      assert IsAlpha(t[i]);
      AlphaNext(t[i]);
    }
    LeadsThrough(BeforeUrl, t, InSchema, Schema);
    LeadsOne(InSchema, ':');
    LeadsTo(BeforeUrl, t, InSchema, Fill(Schema, |t|), false, ":", SchemaSlash, [None], false);
    LeadsOne(SchemaSlash, '/');
    LeadsTo(BeforeUrl, t + ":", SchemaSlash, Fill(Schema, |t|) + [None], false, "/", SchemaSlashSlash, [None], false);
    LeadsOne(SchemaSlashSlash, '/');
    LeadsTo(BeforeUrl, t + ":" + "/", SchemaSlashSlash, Fill(Schema, |t|) + [None] + [None], false, "/", ServerStart, [None], false);
    assert t + ":" + "/" + "/" == t + "://";
    assert Fill(Schema, |t|) + [None] + [None] + [None] == Fill(Schema, |t|) + [None, None, None];
  }

  lemma AlphaNext(c: char)
    requires IsAlpha(c)
    ensures UrlNext(BeforeUrl, c) == InSchema && UrlNext(InSchema, c) == InSchema
  {
  }

  predicate IsServerText(t: string) {
    forall c <- t :: IsUserinfoChar(c) || c == '[' || c == ']'
  }

  lemma ServerTextLeads(s: UrlState, t: string)
    requires t != "" && IsServerText(t) && (s.ServerStart? || s.ServerWithAt?)
    ensures Leads(s, t, InServer, Fill(Host, |t|), false)
  {
    hide Leads, IsUserinfoChar;
    forall i | 0 <= i < |t|
      ensures UrlNext(s, t[i]) == InServer && UrlNext(InServer, t[i]) == InServer
    {
      assert IsUserinfoChar(t[i]) || t[i] == '[' || t[i] == ']';
      ServerByte(s, t[i]);
    }
    LeadsThrough(s, t, InServer, Host);
  }

  lemma ServerByte(s: UrlState, c: char)
    requires IsUserinfoChar(c) || c == '[' || c == ']'
    requires s.ServerStart? || s.ServerWithAt?
    ensures UrlNext(s, c) == InServer && UrlNext(InServer, c) == InServer
  {
  }

  lemma HostTextIsServerText(x: Server)
    requires WellFormedServer(x)
    ensures IsServerText(x.userinfo) && IsServerText(HostPart(x.host) + PortPart(x.port)) && HostPart(x.host) + PortPart(x.port) != ""
  {
    forall c <- HostPart(x.host) + PortPart(x.port)
      ensures IsUserinfoChar(c) || c == '[' || c == ']'
    {
      if c in x.host.text {
      } else if c in x.port {
        assert IsNum(c);
      }
    }
    forall c <- x.userinfo
      ensures IsUserinfoChar(c) || c == '[' || c == ']'
    {
    }
  }

  lemma FillFill(f: UrlField, m: nat, n: nat)
    ensures Fill(f, m) + Fill(f, n) == Fill(f, m + n)
  {
  }

  lemma ServerLeads(x: Server)
    requires WellFormedServer(x)
    ensures Leads(ServerStart, ServerPart(x), InServer, Fill(Host, |ServerPart(x)|), x.userinfo != "")
  {
    hide Leads, WellFormedServer, IsServerText, HostPart, Fill;
    HostTextIsServerText(x);
    var t := HostPart(x.host) + PortPart(x.port);
    if x.userinfo == "" {
      ServerTextLeads(ServerStart, t);
      assert "" + HostPart(x.host) == HostPart(x.host);
      assert ServerPart(x) == t;
    } else {
      ServerTextLeads(ServerStart, x.userinfo);
      LeadsOne(InServer, '@');
      var n := |x.userinfo|;
      LeadsTo(ServerStart, x.userinfo, InServer, Fill(Host, n), false, "@", ServerWithAt, [Some(Host)], true);
      ServerTextLeads(ServerWithAt, t);
      LeadsTo(ServerStart, x.userinfo + "@", ServerWithAt, Fill(Host, n) + [Some(Host)], true, t, InServer, Fill(Host, |t|), false);
      assert ServerPart(x) == x.userinfo + "@" + t;
      FillOne(Host);
      FillFill(Host, n, 1);
      FillFill(Host, n + 1, |t|);
    }
  }

  lemma FillOne(f: UrlField)
    ensures Fill(f, 1) == [Some(f)]
  {
  }

  lemma PathLeads(s: UrlState, t: string)
    requires t != "" ==> UrlNext(s, t[0]) == InPath && forall c <- t :: IsUrlChar(c)
    ensures Leads(s, t, if t == "" then s else InPath, Fill(Path, |t|), false)
  {
    hide Leads;
    if t == "" {
      LeadsNowhere(s);
      assert Fill(Path, 0) == [];
    } else {
      forall i | 1 <= i < |t|
        ensures UrlNext(InPath, t[i]) == InPath
      {
        assert IsUrlChar(t[i]);
      }
      LeadsThrough(s, t, InPath, Path);
    }
  }

  lemma QueryLeads(s: UrlState, t: string)
    requires (forall c <- t :: IsUrlChar(c) || c == '?') && (s.InServer? || s.InPath?) && t != ""
    ensures Leads(s, "?" + t, InQuery, [None] + Fill(Query, |t|), false)
  {
    hide Leads;
    LeadsOne(s, '?');
    forall i | 0 <= i < |t|
      ensures UrlNext(QueryStart, t[i]) == InQuery && UrlNext(InQuery, t[i]) == InQuery
    {
      assert IsUrlChar(t[i]) || t[i] == '?';
    }
    LeadsThrough(QueryStart, t, InQuery, Query);
    LeadsTo(s, "?", QueryStart, [None], false, t, InQuery, Fill(Query, |t|), false);
  }

  lemma FragmentLeads(s: UrlState, t: string)
    requires (forall c <- t :: IsUrlChar(c) || c == '?' || c == '#') && (s.InQuery? || s.InPath?) && t != "" && t[0] != '#'
    ensures Leads(s, "#" + t, InFragment, [None] + Fill(Fragment, |t|), false)
  {
    hide Leads;
    LeadsOne(s, '#');
    forall i | 0 <= i < |t|
      ensures UrlNext(InFragment, t[i]) == InFragment && (t[i] != '#' ==> UrlNext(FragmentStart, t[i]) == InFragment)
    {
      assert IsUrlChar(t[i]) || t[i] == '?' || t[i] == '#';
    }
    LeadsThrough(FragmentStart, t, InFragment, Fragment);
    LeadsTo(s, "#", FragmentStart, [None], false, t, InFragment, Fill(Fragment, |t|), false);
  }

  lemma TailLeads(s: UrlState, x: Parts) returns (q: UrlState)
    requires WellFormedTail(x) && (s.InServer? || s.BeforeUrl?) && (if x.path == "" then s.InServer? else UrlNext(s, x.path[0]) == InPath)
    ensures !q.UrlDead? && Leads(s, Tail(x), q, TailLayout(x), false)
  {
    hide Leads, IsUrlChar, Fill, WellFormedServer, IsAlpha;
    PathLeads(s, x.path);
    q := if x.path == "" then s else InPath;
    var t, own := x.path, Fill(Path, |x.path|);
    var u, mid := (if x.query == "" then "" else "?" + x.query), (if x.query == "" then [] else [None] + Fill(Query, |x.query|));
    var r := if x.query == "" then q else InQuery;
    if x.query == "" { LeadsNowhere(q); } else { QueryLeads(q, x.query); }
    LeadsTo(s, t, q, own, false, u, r, mid, false);
    q := if x.fragment == "" then r else InFragment;
    var v, end := (if x.fragment == "" then "" else "#" + x.fragment), (if x.fragment == "" then [] else [None] + Fill(Fragment, |x.fragment|));
    if x.fragment == "" { LeadsNowhere(r); } else { FragmentLeads(r, x.fragment); }
    LeadsTo(s, t + u, r, own + mid, false, v, q, end, false);
  }

  lemma SlashNext()
    ensures UrlNext(InServer, '/') == InPath
  {
  }

  lemma RenderLeads(x: Parts) returns (q: UrlState)
    requires WellFormed(x)
    ensures !q.UrlDead?
    ensures Leads(BeforeUrl, Render(x), q,
                  Fill(Schema, |x.schema|) + [None, None, None] + Fill(Host, |ServerPart(x.server)|) + TailLayout(x), x.server.userinfo != "")
  {
    hide Leads, Fill, WellFormedServer, IsAlpha, IsUrlChar, ServerPart, Tail, TailLayout;
    SchemaLeads(x.schema);
    ServerLeads(x.server);
    if x.path != "" { SlashNext(); }
    q := TailLeads(InServer, x);
    var at := x.server.userinfo != "";
    var t, own := x.schema + "://", Fill(Schema, |x.schema|) + [None, None, None];
    LeadsTo(BeforeUrl, t, ServerStart, own, false, ServerPart(x.server), InServer, Fill(Host, |ServerPart(x.server)|), at);
    LeadsTo(BeforeUrl, t + ServerPart(x.server), InServer, own + Fill(Host, |ServerPart(x.server)|), at, Tail(x), q, TailLayout(x), false);
  }

  lemma HostPartLeads(h: HostText)
    requires h.text != "" && forall c <- h.text :: if h.Name? then IsHostChar(c) else IsHex(c) || c == ':' || c == '.'
    ensures HostLeads(HostStart, HostPart(h), if h.Name? then InHost else V6End, HostLayout(h))
  {
    hide HostLeads, Fill;
    var t := h.text;
    if h.Name? {
      forall i | 0 <= i < |t|
        ensures HostNext(HostStart, t[i]) == InHost && HostNext(InHost, t[i]) == InHost
      {
        assert IsHostChar(t[i]);
      }
      HostLeadsThrough(HostStart, t, InHost, Host);
    } else {
      HostLeadsOne(HostStart, '[');
      forall i | 0 <= i < |t|
        ensures HostNext(V6Start, t[i]) == InV6 && HostNext(InV6, t[i]) == InV6
      {
        assert IsHex(t[i]) || t[i] == ':' || t[i] == '.';
      }
      HostLeadsThrough(V6Start, t, InV6, Host);
      HostLeadsTo(HostStart, "[", V6Start, [None], t, InV6, Fill(Host, |t|));
      HostLeadsOne(InV6, ']');
      HostLeadsTo(HostStart, "[" + t, InV6, [None] + Fill(Host, |t|), "]", V6End, [None]);
    }
  }

  lemma PortPartLeads(s: HostState, t: string)
    requires FitsPort(t) && (s.InHost? || s.V6End?)
    ensures HostLeads(s, PortPart(t), if t == "" then s else InPort, if t == "" then [] else [None] + Fill(Port, |t|))
  {
    hide HostLeads, Fill;
    if t == "" {
      HostLeadsNowhere(s);
    } else {
      HostLeadsOne(s, ':');
      forall i | 0 <= i < |t|
        ensures HostNext(PortStart, t[i]) == InPort && HostNext(InPort, t[i]) == InPort
      {
        assert IsNum(t[i]);
      }
      HostLeadsThrough(PortStart, t, InPort, Port);
      HostLeadsTo(s, ":", PortStart, [None], t, InPort, Fill(Port, |t|));
    }
  }

  lemma UserinfoLeads(t: string)
    requires forall c <- t :: IsUserinfoChar(c)
    ensures HostLeads(ServerPartStart(t != ""), if t == "" then "" else t + "@", HostStart, if t == "" then [] else Fill(Userinfo, |t|) + [None])
  {
    hide HostLeads, Fill;
    if t == "" {
      HostLeadsNowhere(HostStart);
    } else {
      forall i | 0 <= i < |t|
        ensures HostNext(UserinfoStart, t[i]) == InUserinfo && HostNext(InUserinfo, t[i]) == InUserinfo
      {
        assert IsUserinfoChar(t[i]);
      }
      HostLeadsThrough(UserinfoStart, t, InUserinfo, Userinfo);
      HostLeadsOne(InUserinfo, '@');
      HostLeadsTo(UserinfoStart, t, InUserinfo, Fill(Userinfo, |t|), "@", HostStart, [None]);
    }
  }

  lemma ServerPartLeads(x: Server) returns (q: HostState)
    requires WellFormedServer(x)
    ensures Ends(q) && HostLeads(ServerPartStart(x.userinfo != ""), ServerPart(x), q, ServerLayout(x))
  {
    hide HostLeads, Fill, IsUserinfoChar, IsHostChar, IsHex, HostPart, HostLayout, FitsPort, ServerPartStart;
    var s := ServerPartStart(x.userinfo != "");
    var a, own := (if x.userinfo == "" then "" else x.userinfo + "@"), (if x.userinfo == "" then [] else Fill(Userinfo, |x.userinfo|) + [None]);
    UserinfoLeads(x.userinfo);
    HostPartLeads(x.host);
    var h := if x.host.Name? then InHost else V6End;
    HostLeadsTo(s, a, HostStart, own, HostPart(x.host), h, HostLayout(x.host));
    PortPartLeads(h, x.port);
    q := if x.port == "" then h else InPort;
    HostLeadsTo(s, a + HostPart(x.host), h, own + HostLayout(x.host), PortPart(x.port), q, if x.port == "" then [] else [None] + Fill(Port, |x.port|));
  }

  lemma FillSpan(a: seq<Owner>, f: UrlField, n: nat, b: seq<Owner>)
    requires Some(f) !in a && Some(f) !in b && n > 0
    ensures IsSpan(a + Fill(f, n) + b, f, |a|, |a| + n)
  {
    var own := a + Fill(f, n) + b;
    forall i | 0 <= i < |own|
      ensures own[i] == Some(f) <==> |a| <= i < |a| + n
    {
      if i < |a| {
        assert own[i] == a[i];
      } else if i >= |a| + n {
        assert own[i] == b[i - |a| - n];
      }
    }
  }

  lemma Replaced(b: string, connect: bool, a: string, t: string, c: string, own: seq<Owner>, part: seq<Owner>, end: seq<Owner>)
    requires b == a + t + c && t != "" && |own| == |a| && |part| == |t| && |end| == |c|
    requires Some(Host) !in own && Some(Host) !in end
    requires UrlOwners(UrlStart(connect), b) == own + Fill(Host, |t|) + end
    requires HostOwners(ServerPartStart(FoundAt(UrlStart(connect), b)), t) == part
    ensures Owners(b, connect) == own + part + end
    ensures IsSpan(UrlOwners(UrlStart(connect), b), Host, |a|, |a| + |t|)
  {
    hide UrlOwners, HostOwners, FoundAt, Owners, IsSpan, Fill, ServerPartStart, UrlStart;
    var lo, hi := |a|, |a| + |t|;
    assert b[lo..hi] == t;
    FillSpan(own, Host, |t|, end);
    FillLength(Host, |t|);
    forall i | 0 <= i < |b|
      ensures Owners(b, connect)[i] == (own + part + end)[i]
    {
      SpliceAt(b, connect, lo, hi, i);
    }
  }

  lemma FillLength(f: UrlField, n: nat)
    ensures |Fill(f, n)| == n
    ensures forall g :: Some(g) in Fill(f, n) ==> g == f
  {
  }

  lemma LayoutFields(x: Parts)
    ensures forall f :: Some(f) in TailLayout(x) ==> f == Path || f == Query || f == Fragment
    ensures forall f :: Some(f) in HostLayout(x.server.host) ==> f == Host
    ensures |HostLayout(x.server.host)| == |HostPart(x.server.host)|
    ensures |ServerLayout(x.server)| == |ServerPart(x.server)| && |TailLayout(x)| == |Tail(x)|
  {
    hide Fill;
    FillLength(Path, |x.path|);
    FillLength(Query, |x.query|);
    FillLength(Fragment, |x.fragment|);
    FillLength(Host, |x.server.host.text|);
    FillLength(Userinfo, |x.server.userinfo|);
    FillLength(Port, |x.server.port|);
  }

  function BeforePort(x: Parts): seq<Owner> {
    Fill(Schema, |x.schema|) + [None, None, None]
    + (if x.server.userinfo == "" then [] else Fill(Userinfo, |x.server.userinfo|) + [None]) + HostLayout(x.server.host)
  }

  function BeforePortText(x: Parts): string {
    x.schema + "://" + (if x.server.userinfo == "" then "" else x.server.userinfo + "@") + HostPart(x.server.host)
  }

  lemma LayoutAroundPort(x: Parts)
    ensures Layout(x) == BeforePort(x) + (if x.server.port == "" then [] else [None] + Fill(Port, |x.server.port|)) + TailLayout(x)
    ensures |BeforePort(x)| == |BeforePortText(x)| && Some(Port) !in BeforePort(x)
  {
    hide Fill, HostLayout, TailLayout, BeforePortText;
    BeforePortFields(x);
    var a := Fill(Schema, |x.schema|) + [None, None, None];
    var u := if x.server.userinfo == "" then [] else Fill(Userinfo, |x.server.userinfo|) + [None];
    var v := if x.server.port == "" then [] else [None] + Fill(Port, |x.server.port|);
    assert a + (u + HostLayout(x.server.host) + v) == a + u + HostLayout(x.server.host) + v;
  }

  lemma BeforePortFields(x: Parts)
    ensures |BeforePort(x)| == |BeforePortText(x)| && Some(Port) !in BeforePort(x)
  {
    hide Fill, HostLayout, HostPart, TailLayout, Tail, ServerLayout, ServerPart;
    LayoutFields(x);
    FillLength(Schema, |x.schema|);
    FillLength(Userinfo, |x.server.userinfo|);
  }

  lemma TextAroundPort(x: Parts)
    ensures Render(x) == BeforePortText(x) + PortPart(x.server.port) + Tail(x)
  {
    hide HostPart, Tail, PortPart;
  }

  lemma PortFits(x: Parts)
    requires FitsPort(x.server.port) && |Layout(x)| == |Render(x)|
    ensures PortOk(Layout(x), Render(x))
  {
    hide Fill, IsSpan, Layout, Render, TailLayout, Tail, FitsPort, BeforePort, BeforePortText;
    LayoutFields(x);
    LayoutAroundPort(x);
    TextAroundPort(x);
    var port := x.server.port;
    if port == "" {
      NoSpan(Layout(x), Port);
    } else {
      var a, n := BeforePort(x) + [None], |port|;
      assert Layout(x) == a + Fill(Port, n) + TailLayout(x);
      FillSpan(a, Port, n, TailLayout(x));
      SpanUnique(Layout(x), Port, |a|, |a| + n);
      assert Render(x) == (BeforePortText(x) + ":") + port + Tail(x);
      assert Render(x)[|a|..|a| + n] == port;
    }
  }

  /** Every well-formed URL is accepted, and every byte of it goes back to the part it was written for. */
  lemma UrlRoundTrip(x: Parts)
    requires WellFormed(x)
    ensures Accepted(Render(x), false)
    ensures Owners(Render(x), false) == Layout(x)
  {
    hide Fill, IsSpan, Layout, TailLayout, ServerLayout, HostLayout, HostPart, Tail, ServerPart, UrlRun, UrlOwners,
      FoundAt, HostRun, HostOwners, Owners, FitsPort, PortOk, OnlyHostAndPort, IsAlpha, IsUrlChar;
    var b := Render(x);
    var q := RenderLeads(x);
    var h := ServerPartLeads(x.server);
    LayoutFields(x);
    ServerNotEmpty(x.server);
    FillLength(Schema, |x.schema|);
    var t, own := x.schema + "://", Fill(Schema, |x.schema|) + [None, None, None];
    var n := |ServerPart(x.server)|;
    assert b == t + ServerPart(x.server) + Tail(x);
    Replaced(b, false, t, ServerPart(x.server), Tail(x), own, ServerLayout(x.server), TailLayout(x));
    assert Layout(x) == own + ServerLayout(x.server) + TailLayout(x) by { LayoutIs(x); }
    assert b[|t|..|t| + n] == ServerPart(x.server);
    SpanUnique(UrlOwners(BeforeUrl, b), Host, |t|, |t| + n);
    SpanIn(UrlOwners(BeforeUrl, b), Host, |t|, |t| + n);
    PortFits(x);
  }

  lemma ServerNotEmpty(x: Server)
    requires WellFormedServer(x)
    ensures ServerPart(x) != ""
  {
  }

  lemma LayoutIs(x: Parts)
    ensures Layout(x) == Fill(Schema, |x.schema|) + [None, None, None] + ServerLayout(x.server) + TailLayout(x)
  {
  }
}
