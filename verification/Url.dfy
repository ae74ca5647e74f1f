/** Splitting a URL into its fields. Byte by byte, two transition functions decide which field a byte
    belongs to; `Owners` gives that assignment for a whole URL. The parser's ranges are proved to be
    exactly the bytes of each field. */
module Url {
  import opened Chars
  import opened Options
  import opened Numbers

  type uint16 = x: int | 0 <= x < 0x10000

  datatype UrlField = Schema | Host | Port | Path | Query | Fragment | Userinfo

  datatype UrlState =
    | UrlDead | BeforeUrl | InSchema | SchemaSlash | SchemaSlashSlash | ServerStart | InServer | ServerWithAt
    | InPath | QueryStart | InQuery | FragmentStart | InFragment

  datatype HostState =
    | HostDead | UserinfoStart | InUserinfo | HostStart | InHost | V6Start | InV6 | V6End | PortStart | InPort

  /** One byte of a URL. */
  function UrlNext(s: UrlState, c: char): UrlState {
    if c == ' ' || c == CR || c == LF then UrlDead
    else match s
      case BeforeUrl => if c == '/' || c == '*' then InPath else if IsAlpha(c) then InSchema else UrlDead
      case InSchema => if IsAlpha(c) then InSchema else if c == ':' then SchemaSlash else UrlDead
      case SchemaSlash => if c == '/' then SchemaSlashSlash else UrlDead
      case SchemaSlashSlash => if c == '/' then ServerStart else UrlDead
      case ServerWithAt => if c == '@' then UrlDead else ServerNext(c)
      case ServerStart => ServerNext(c)
      case InServer => ServerNext(c)
      case InPath =>
        if IsUrlChar(c) then InPath else if c == '?' then QueryStart else if c == '#' then FragmentStart else UrlDead
      case QueryStart => QueryNext(c)
      case InQuery => QueryNext(c)
      case FragmentStart =>
        if IsUrlChar(c) || c == '?' then InFragment else if c == '#' then FragmentStart else UrlDead
      case InFragment => if IsUrlChar(c) || c == '?' || c == '#' then InFragment else UrlDead
      case UrlDead => UrlDead
  }

  function ServerNext(c: char): UrlState {
    if c == '/' then InPath
    else if c == '?' then QueryStart
    else if c == '@' then ServerWithAt
    else if IsUserinfoChar(c) || c == '[' || c == ']' then InServer
    else UrlDead
  }

  function QueryNext(c: char): UrlState {
    if IsUrlChar(c) || c == '?' then InQuery else if c == '#' then FragmentStart else UrlDead
  }

  /** One byte of the server part. */
  function HostNext(s: HostState, c: char): HostState {
    match s
    case UserinfoStart => UserinfoNext(c)
    case InUserinfo => UserinfoNext(c)
    case HostStart => if c == '[' then V6Start else if IsHostChar(c) then InHost else HostDead
    case InHost => if IsHostChar(c) then InHost else if c == ':' then PortStart else HostDead
    case V6End => if c == ':' then PortStart else HostDead
    case InV6 => if c == ']' then V6End else V6Next(c)
    case V6Start => V6Next(c)
    case PortStart => if IsNum(c) then InPort else HostDead
    case InPort => if IsNum(c) then InPort else HostDead
    case HostDead => HostDead
  }

  function UserinfoNext(c: char): HostState {
    if c == '@' then HostStart else if IsUserinfoChar(c) then InUserinfo else HostDead
  }

  function V6Next(c: char): HostState {
    if IsHex(c) || c == ':' || c == '.' then InV6 else HostDead
  }

  type Owner = Option<UrlField>

  /** The field of the byte that led to `s`; none for a delimiter. The server part is all `Host` at first. */
  function FieldOf(s: UrlState): Owner {
    match s
    case InSchema => Some(Schema)
    case InServer => Some(Host)
    case ServerWithAt => Some(Host)
    case InPath => Some(Path)
    case InQuery => Some(Query)
    case InFragment => Some(Fragment)
    case _ => None
  }

  function HostFieldOf(s: HostState): Owner {
    match s
    case InUserinfo => Some(Userinfo)
    case InHost => Some(Host)
    case InV6 => Some(Host)
    case InPort => Some(Port)
    case _ => None
  }

  function UrlStart(connect: bool): UrlState {
    if connect then ServerStart else BeforeUrl
  }

  function ServerPartStart(foundAt: bool): HostState {
    if foundAt then UserinfoStart else HostStart
  }

  function UrlRun(s: UrlState, b: string): UrlState {
    if b == "" then s else UrlNext(UrlRun(s, b[..|b| - 1]), b[|b| - 1])
  }

  function HostRun(s: HostState, b: string): HostState {
    if b == "" then s else HostNext(HostRun(s, b[..|b| - 1]), b[|b| - 1])
  }

  function UrlOwners(s: UrlState, b: string): (own: seq<Owner>)
    ensures |own| == |b|
  {
    if b == "" then [] else UrlOwners(s, b[..|b| - 1]) + [FieldOf(UrlRun(s, b))]
  }

  function HostOwners(s: HostState, b: string): (own: seq<Owner>)
    ensures |own| == |b|
  {
    if b == "" then [] else HostOwners(s, b[..|b| - 1]) + [HostFieldOf(HostRun(s, b))]
  }

  predicate FoundAt(s: UrlState, b: string) {
    b != "" && (UrlRun(s, b).ServerWithAt? || FoundAt(s, b[..|b| - 1]))
  }

  /** The bytes of `f` are those from `lo` up to `hi`. */
  ghost predicate IsSpan(own: seq<Owner>, f: UrlField, lo: int, hi: int) {
    0 <= lo < hi <= |own| && forall i :: 0 <= i < |own| ==> (own[i] == Some(f) <==> lo <= i < hi)
  }

  function First(own: seq<Owner>, f: UrlField): (n: nat)
    ensures n <= |own| && forall i :: 0 <= i < n ==> own[i] != Some(f)
    ensures n < |own| ==> own[n] == Some(f)
  {
    if own == [] || own[0] == Some(f) then 0 else 1 + First(own[1..], f)
  }

  /** The field of each byte of a URL: the server part goes through the second transition function. */
  function Owners(b: string, connect: bool): (own: seq<Owner>)
    ensures |own| == |b|
  {
    var s := UrlStart(connect);
    var own := UrlOwners(s, b);
    seq(|b|, i requires 0 <= i < |b| => OwnerAt(own, b, ServerPartStart(FoundAt(s, b)), i))
  }

  function OwnerAt(own: seq<Owner>, b: string, h: HostState, i: nat): Owner
    requires |own| == |b| && i < |b|
  {
    var lo := First(own, Host);
    if own[i] == Some(Host) then HostFieldOf(HostRun(h, b[lo..i + 1])) else own[i]
  }

  /** The states in which a server part may end. */
  predicate Ends(s: HostState) {
    s.InHost? || s.V6End? || s.InPort?
  }

  predicate FitsPort(t: string) {
    (forall x <- t :: IsNum(x)) && DecVal(t) <= 0xffff
  }

  /** A schema needs a server, and a server part has to end in a host or a port. */
  ghost predicate ServerOk(own: seq<Owner>, b: string, h: HostState)
    requires |own| == |b|
  {
    && (Some(Schema) in own ==> Some(Host) in own)
    && (forall lo, hi :: IsSpan(own, Host, lo, hi) ==> Ends(HostRun(h, b[lo..hi])))
  }

  ghost predicate PortOk(own: seq<Owner>, b: string)
    requires |own| == |b|
  {
    forall lo, hi :: IsSpan(own, Port, lo, hi) ==> FitsPort(b[lo..hi])
  }

  /** CONNECT takes a host and a port and nothing else. */
  ghost predicate OnlyHostAndPort(own: seq<Owner>) {
    forall f :: Some(f) in own <==> f == Host || f == Port
  }

  /** The URLs that are accepted. */
  ghost predicate Accepted(b: string, connect: bool) {
    var s := UrlStart(connect);
    && !UrlRun(s, b).UrlDead?
    && ServerOk(UrlOwners(s, b), b, ServerPartStart(FoundAt(s, b)))
    && (connect ==> OnlyHostAndPort(Owners(b, connect)))
    && PortOk(Owners(b, connect), b)
  }

  datatype Range = Range(off: uint16, len: uint16)

  ghost predicate Covered(present: bool, r: Range, own: seq<Owner>, f: UrlField) {
    if present then IsSpan(own, f, r.off, r.off + r.len) else Some(f) !in own
  }

  /** The ranges of the fields in `only` are exactly the bytes they own. */
  ghost predicate Covers(only: set<UrlField>, present: set<UrlField>, data: map<UrlField, Range>, own: seq<Owner>) {
    forall f :: f in only ==> f in data && Covered(f in present, data[f], own, f)
  }

  lemma CoversExtend(only: set<UrlField>, present: set<UrlField>, data: map<UrlField, Range>, own: seq<Owner>, f: UrlField)
    requires Covers(only, present, data, own) && f in only && f in present && data[f].off + data[f].len == |own| < 0xffff
    ensures Covers(only, present, data[f := Range(data[f].off, data[f].len + 1)], own + [Some(f)])
  {
  }

  lemma CoversOpen(only: set<UrlField>, present: set<UrlField>, data: map<UrlField, Range>, own: seq<Owner>, f: UrlField)
    requires Covers(only, present, data, own) && f in only && f !in present && |own| < 0xffff
    ensures Covers(only, present + {f}, data[f := Range(|own|, 1)], own + [Some(f)])
  {
  }

  lemma CoversSkip(only: set<UrlField>, present: set<UrlField>, data: map<UrlField, Range>, own: seq<Owner>)
    requires Covers(only, present, data, own)
    ensures Covers(only, present, data, own + [None])
  {
  }

  // States follow the order of the fields.

  function Rank(s: UrlState): nat {
    match s
    case UrlDead => 0
    case BeforeUrl => 0
    case InSchema => 1
    case SchemaSlash => 2
    case SchemaSlashSlash => 3
    case ServerStart => 4
    case InServer => 5
    case ServerWithAt => 5
    case InPath => 6
    case QueryStart => 7
    case InQuery => 8
    case FragmentStart => 9
    case InFragment => 10
  }

  function FieldRank(f: UrlField): nat {
    match f
    case Schema => 1
    case Userinfo => 5
    case Host => 5
    case Port => 5
    case Path => 6
    case Query => 8
    case Fragment => 10
  }

  lemma RankRises(s: UrlState, c: char)
    ensures !UrlNext(s, c).UrlDead? ==> Rank(s) <= Rank(UrlNext(s, c)) && !UrlNext(s, c).BeforeUrl?
    ensures s.UrlDead? ==> UrlNext(s, c).UrlDead?
  {
  }

  function HostRank(s: HostState): nat {
    match s
    case HostDead => 0
    case UserinfoStart => 0
    case InUserinfo => 1
    case HostStart => 2
    case V6Start => 3
    case InV6 => 4
    case InHost => 4
    case V6End => 5
    case PortStart => 6
    case InPort => 7
  }

  function HostFieldRank(f: UrlField): nat {
    match f
    case Userinfo => 1
    case Host => 4
    case Port => 7
    case _ => 8
  }

  lemma HostRankRises(s: HostState, c: char)
    ensures !HostNext(s, c).HostDead? ==> HostRank(s) <= HostRank(HostNext(s, c))
    ensures s.HostDead? ==> HostNext(s, c).HostDead?
    ensures HostFieldOf(HostNext(s, c)).Some? && HostRank(s) == HostRank(HostNext(s, c)) ==> HostNext(s, c) == s
    ensures HostRank(HostNext(s, c)) >= 4 ==> HostRank(s) >= 4 || HostFieldOf(HostNext(s, c)) == Some(Host)
  {
  }

  lemma {:induction false} DeadForever(s: UrlState, b: string, n: nat)
    requires n <= |b| && UrlRun(s, b[..n]).UrlDead?
    ensures UrlRun(s, b).UrlDead?
    decreases |b| - n
  {
    if n < |b| {
      assert b[..n + 1][..n] == b[..n];
      DeadForever(s, b, n + 1);
    } else {
      assert b[..n] == b;
    }
  }

  lemma {:induction false} HostDeadForever(s: HostState, b: string, n: nat)
    requires n <= |b| && HostRun(s, b[..n]).HostDead?
    ensures HostRun(s, b).HostDead?
    decreases |b| - n
  {
    if n < |b| {
      assert b[..n + 1][..n] == b[..n];
      HostDeadForever(s, b, n + 1);
    } else {
      assert b[..n] == b;
    }
  }

  const URL_FIELDS: set<UrlField> := {Schema, Userinfo, Host, Port, Path, Query, Fragment}
  const SERVER_FIELDS: set<UrlField> := {Userinfo, Host, Port}

  /** What the first loop knows after the bytes whose owners are `own`, in state `s`. */
  ghost predicate Scanned(s: UrlState, last: Owner, present: set<UrlField>, data: map<UrlField, Range>, own: seq<Owner>) {
    && Covers(URL_FIELDS, present, data, own)
    && (forall f <- present :: FieldRank(f) <= Rank(s))
    && (last.Some? ==> last.value in present)
    && (FieldOf(s).Some? ==> FieldOf(s) == last)
    && (last.Some? && FieldOf(s) == last ==> data[last.value].off + data[last.value].len == |own|)
    && Userinfo !in present && Port !in present
    && (Host !in present ==> data[Host] == Range(0, 0))
  }

  lemma ScannedStep(s: UrlState, c: char, last: Owner, present: set<UrlField>, data: map<UrlField, Range>, own: seq<Owner>)
    requires Scanned(s, last, present, data, own) && |own| < 0xffff
    ensures var f := FieldOf(UrlNext(s, c));
            && (f.None? && !UrlNext(s, c).UrlDead? ==> Scanned(UrlNext(s, c), last, present, data, own + [f]))
            && (f.Some? && f == last ==>
                  && data[f.value].len < 0xffff
                  && Scanned(UrlNext(s, c), last, present, data[f.value := Range(data[f.value].off, data[f.value].len + 1)], own + [f]))
            && (f.Some? && f != last ==>
                  Scanned(UrlNext(s, c), f, present + {f.value}, data[f.value := Range(|own|, 1)], own + [f]))
  {
    hide Covers, UrlNext;
    if UrlNext(s, c).UrlDead? { return; }
    RankRises(s, c);
    RankIsField(s);
    RankIsField(UrlNext(s, c));
    var f := FieldOf(UrlNext(s, c));
    CoversRange(present, data, own);
    if f.None? {
      CoversSkip(URL_FIELDS, present, data, own);
    } else if f == last {
      CoversExtend(URL_FIELDS, present, data, own, f.value);
    } else {
      CoversOpen(URL_FIELDS, present, data, own, f.value);
    }
  }

  lemma RankIsField(s: UrlState)
    ensures forall f :: f != Userinfo && f != Port ==> (FieldOf(s) == Some(f) <==> Rank(s) == FieldRank(f))
    ensures FieldOf(s) != Some(Userinfo) && FieldOf(s) != Some(Port)
  {
  }

  lemma CoversRange(present: set<UrlField>, data: map<UrlField, Range>, own: seq<Owner>)
    requires Covers(URL_FIELDS, present, data, own)
    ensures forall f :: f in URL_FIELDS ==> f in data && (f in present ==> data[f].off + data[f].len <= |own|)
  {
  }

  class HttpParserUrl {
    var fieldSet: set<UrlField>
    var fieldData: map<UrlField, Range>
    var port: uint16

    constructor ()
      ensures fieldSet == {} && fieldData.Keys == URL_FIELDS && (forall f :: f in fieldData ==> fieldData[f] == Range(0, 0))
    {
      fieldSet, fieldData, port := {}, map f | f in URL_FIELDS :: Range(0, 0), 0;
    }

    ghost predicate Complete()
      reads this
    {
      forall f: UrlField :: f in fieldData
    }

    /** One more byte, at `p`, for a field of the server part. */
    method Grow(f: UrlField, starts: bool, p: uint16)
      requires Complete() && (starts && f == Host ==> fieldData[f].len == 0) && (!starts ==> fieldData[f].len < 0xffff)
      modifies this
      ensures Complete() && port == old(port)
      ensures fieldSet == old(fieldSet) + if starts then {f} - {Host} else {}
      ensures fieldData == old(fieldData)[f := if starts then Range(p, 1) else Range(old(fieldData)[f].off, old(fieldData)[f].len + 1)]
    {
      if starts {
        if f == Host {
          fieldData := fieldData[f := Range(p, fieldData[f].len)];
        } else {
          fieldData := fieldData[f := Range(p, 0)];
          fieldSet := fieldSet + {f};
        }
      }
      fieldData := fieldData[f := Range(fieldData[f].off, fieldData[f].len + 1)];
    }
  }

  /** The first loop: the fields as the first transition function sees them. */
  method ScanUrl(buf: string, connect: bool, u: HttpParserUrl) returns (failed: bool, foundAt: bool)
    requires |buf| <= 0xffff && u.Complete() && u.fieldData[Host] == Range(0, 0)
    modifies u
    ensures u.Complete()
    ensures failed <==> UrlRun(UrlStart(connect), buf).UrlDead?
    ensures !failed ==> foundAt == FoundAt(UrlStart(connect), buf)
    ensures !failed ==> u.port == 0 && exists s, last :: Scanned(s, last, u.fieldSet, u.fieldData, UrlOwners(UrlStart(connect), buf))
  {
    hide Covers, UrlNext, FieldOf, Rank, Scanned;
    u.port, u.fieldSet := 0, {};
    ghost var s0 := UrlStart(connect);
    var s := UrlStart(connect);
    var last: Owner := None;
    var p := 0;
    failed, foundAt := false, false;
    ScannedNothing(connect, u.fieldData);
    while p < |buf|
      invariant 0 <= p <= |buf| && u.Complete() && u.port == 0
      invariant !s.UrlDead? && s == UrlRun(s0, buf[..p]) && foundAt == FoundAt(s0, buf[..p])
      invariant Scanned(s, last, u.fieldSet, u.fieldData, UrlOwners(s0, buf[..p]))
    {
      assert buf[..p + 1][..p] == buf[..p];
      ScannedStep(s, buf[p], last, u.fieldSet, u.fieldData, UrlOwners(s0, buf[..p]));
      s := UrlNext(s, buf[p]);
      p := p + 1;
      if s.UrlDead? {
        DeadForever(s0, buf, p);
        return true, foundAt;
      }
      foundAt := foundAt || s.ServerWithAt?;
      var uf := FieldOf(s);
      if uf.Some? {
        var f := uf.value;
        if uf == last {
          u.fieldData := u.fieldData[f := Range(u.fieldData[f].off, u.fieldData[f].len + 1)];
        } else {
          u.fieldData := u.fieldData[f := Range(p - 1, 1)];
          u.fieldSet := u.fieldSet + {f};
          last := uf;
        }
      }
    }
    assert buf[..p] == buf;
  }

  lemma ScannedNothing(connect: bool, data: map<UrlField, Range>)
    requires (forall f: UrlField :: f in data) && data[Host] == Range(0, 0)
    ensures Scanned(UrlStart(connect), None, {}, data, [])
  {
  }

  function Blank(n: nat): (own: seq<Owner>)
    ensures |own| == n
  {
    seq(n, _ => None)
  }

  /** What the second loop knows in state `s`; `present` are the fields it has met. */
  ghost predicate ServerScanned(s: HostState, present: set<UrlField>, data: map<UrlField, Range>, own: seq<Owner>) {
    && Covers(SERVER_FIELDS, present, data, own)
    && (forall f <- present :: f in SERVER_FIELDS && HostFieldRank(f) <= HostRank(s))
    && (HostFieldOf(s).Some? ==>
          var f := HostFieldOf(s).value;
          f in present && f in data && data[f].off + data[f].len == |own|)
    && (Host !in present ==> Host in data && data[Host].len == 0)
    && (HostRank(s) >= 4 ==> Host in present)
  }

  lemma ServerScannedStep(s: HostState, c: char, present: set<UrlField>, data: map<UrlField, Range>, own: seq<Owner>)
    requires ServerScanned(s, present, data, own) && |own| < 0xffff
    ensures var t := HostNext(s, c);
            var f := HostFieldOf(t);
            && (f.None? && !t.HostDead? ==> ServerScanned(t, present, data, own + [f]))
            && (f.Some? && t == s ==>
                  && f.value in present && f.value in data && data[f.value].len < 0xffff
                  && ServerScanned(t, present, data[f.value := Range(data[f.value].off, data[f.value].len + 1)], own + [f]))
            && (f.Some? && t != s ==>
                  && f.value !in present && (f.value == Host ==> Host in data && data[Host].len == 0)
                  && ServerScanned(t, present + {f.value}, data[f.value := Range(|own|, 1)], own + [f]))
  {
    hide Covers, HostNext;
    var t := HostNext(s, c);
    if t.HostDead? { return; }
    HostRankRises(s, c);
    HostRankIsField(s);
    HostRankIsField(t);
    var f := HostFieldOf(t);
    ServerRange(present, data, own);
    if f.None? {
      CoversSkip(SERVER_FIELDS, present, data, own);
    } else if t == s {
      CoversExtend(SERVER_FIELDS, present, data, own, f.value);
    } else {
      CoversOpen(SERVER_FIELDS, present, data, own, f.value);
    }
  }

  lemma HostRankIsField(s: HostState)
    ensures forall f :: HostFieldOf(s) == Some(f) ==> HostRank(s) == HostFieldRank(f) && f in SERVER_FIELDS
  {
  }

  lemma ServerRange(present: set<UrlField>, data: map<UrlField, Range>, own: seq<Owner>)
    requires Covers(SERVER_FIELDS, present, data, own)
    ensures forall f :: f in SERVER_FIELDS ==> f in data && (f in present ==> data[f].off + data[f].len <= |own|)
  {
  }

  lemma ServerScannedNothing(s: HostState, data: map<UrlField, Range>, n: nat)
    requires (forall f: UrlField :: f in data) && data[Host].len == 0 && HostRank(s) < 4 && HostFieldOf(s).None?
    ensures ServerScanned(s, {}, data, Blank(n))
  {
  }

  /** The second loop: the server part falls into user information, host and port. */
  method ParseHost(buf: string, u: HttpParserUrl, foundAt: bool) returns (failed: bool, ghost present: set<UrlField>)
    requires |buf| <= 0xffff && u.Complete() && Userinfo !in u.fieldSet && Port !in u.fieldSet
    requires u.fieldData[Host].off + u.fieldData[Host].len <= |buf|
    modifies u
    ensures u.Complete() && u.port == old(u.port)
    ensures var r := old(u.fieldData)[Host];
            var h := HostRun(ServerPartStart(foundAt), buf[r.off..r.off + r.len]);
            && (failed <==> !Ends(h))
            && (!failed ==> ServerScanned(h, present, u.fieldData, Blank(r.off) + HostOwners(ServerPartStart(foundAt), buf[r.off..r.off + r.len])))
    ensures !failed ==> u.fieldSet == old(u.fieldSet) + (present - {Host})
    ensures forall f :: f !in SERVER_FIELDS ==> u.fieldData[f] == old(u.fieldData)[f]
  {
    hide Covers, HostNext, HostFieldOf, HostRank, ServerScanned, Blank;
    ghost var lo: int := u.fieldData[Host].off;
    var buflen := u.fieldData[Host].off + u.fieldData[Host].len;
    ghost var t := buf[lo..buflen];
    var p: int := u.fieldData[Host].off;
    u.fieldData := u.fieldData[Host := Range(u.fieldData[Host].off, 0)];
    var s := ServerPartStart(foundAt);
    present := {};
    StartIsNoField(foundAt);
    ServerScannedNothing(s, u.fieldData, lo);
    assert Blank(lo) + [] == Blank(lo);
    while p < buflen
      invariant lo <= p <= buflen && u.Complete() && u.port == old(u.port)
      invariant !s.HostDead? && s == HostRun(ServerPartStart(foundAt), t[..p - lo])
      invariant ServerScanned(s, present, u.fieldData, Blank(lo) + HostOwners(ServerPartStart(foundAt), t[..p - lo]))
      invariant u.fieldSet == old(u.fieldSet) + (present - {Host})
      invariant forall f :: f !in SERVER_FIELDS ==> u.fieldData[f] == old(u.fieldData)[f]
    {
      assert t[..p + 1 - lo][..p - lo] == t[..p - lo] && t[p - lo] == buf[p];
      ghost var own := Blank(lo) + HostOwners(ServerPartStart(foundAt), t[..p - lo]);
      ServerScannedStep(s, buf[p], present, u.fieldData, own);
      var next := HostNext(s, buf[p]);
      assert own + [HostFieldOf(next)] == Blank(lo) + HostOwners(ServerPartStart(foundAt), t[..p + 1 - lo]);
      if next.HostDead? {
        HostDeadForever(ServerPartStart(foundAt), t, p + 1 - lo);
        return true, present;
      }
      HostRankIsField(next);
      var f := HostFieldOf(next);
      if f.Some? {
        u.Grow(f.value, next != s, p);
        if next != s { present := present + {f.value}; }
      }
      s := next;
      p := p + 1;
    }
    assert t[..p - lo] == t;
    failed := s.HostStart? || s.V6Start? || s.InV6? || s.PortStart? || s.InUserinfo? || s.UserinfoStart?;
  }

  lemma StartIsNoField(foundAt: bool)
    ensures HostFieldOf(ServerPartStart(foundAt)).None? && HostRank(ServerPartStart(foundAt)) < 4
  {
  }

  lemma {:induction false} DecValPrefix(t: string, n: nat)
    requires n <= |t| && forall x <- t :: IsNum(x)
    ensures (forall x <- t[..n] :: IsNum(x)) && DecVal(t[..n]) <= DecVal(t)
    decreases |t|
  {
    if n == |t| {
      assert t[..n] == t;
    } else {
      var m := |t| - 1;
      assert IsNum(t[m]);
      assert t[..m][..n] == t[..n];
      DecValPrefix(t[..m], n);
    }
  }

  /** The third loop: the number in the digits of `t`, unless it is too large for a port. */
  method ReadPort(t: string) returns (r: Option<uint16>)
    requires forall x <- t :: IsNum(x)
    ensures r == if DecVal(t) <= 0xffff then Some(DecVal(t)) else None
  {
    var v := 0;
    var p := 0;
    while p < |t|
      invariant 0 <= p <= |t| && 0 <= v <= 0xffff
      invariant (forall x <- t[..p] :: IsNum(x)) && v == DecVal(t[..p])
    {
      assert t[..p + 1][..p] == t[..p] && IsNum(t[p]);
      DecValPrefix(t, p + 1);
      v := v * 10 + DigitVal(t[p]);
      if v > 0xffff { return None; }
      p := p + 1;
    }
    assert t[..p] == t;
    return Some(v);
  }

  lemma {:induction false} UrlOwnersAt(s: UrlState, b: string, i: nat)
    requires i < |b|
    ensures UrlOwners(s, b)[i] == FieldOf(UrlRun(s, b[..i + 1]))
    decreases |b|
  {
    if i == |b| - 1 {
      assert b[..i + 1] == b;
    } else {
      assert b[..|b| - 1][..i + 1] == b[..i + 1];
      UrlOwnersAt(s, b[..|b| - 1], i);
    }
  }

  lemma {:induction false} HostOwnersAt(s: HostState, b: string, i: nat)
    requires i < |b|
    ensures HostOwners(s, b)[i] == HostFieldOf(HostRun(s, b[..i + 1]))
    decreases |b|
  {
    if i == |b| - 1 {
      assert b[..i + 1] == b;
    } else {
      assert b[..|b| - 1][..i + 1] == b[..i + 1];
      HostOwnersAt(s, b[..|b| - 1], i);
    }
  }

  lemma FirstOfSpan(own: seq<Owner>, f: UrlField, lo: int, hi: int)
    requires IsSpan(own, f, lo, hi)
    ensures First(own, f) == lo
  {
    hide First;
    assert own[lo] == Some(f);
  }

  lemma OwnerAtServer(own: seq<Owner>, b: string, h: HostState, lo: int, hi: int, i: nat)
    requires |own| == |b| && i < |b| && IsSpan(own, Host, lo, hi)
    ensures OwnerAt(own, b, h, i) == if lo <= i < hi then HostOwners(h, b[lo..hi])[i - lo] else own[i]
  {
    hide HostRun, HostOwners, First, HostFieldOf;
    FirstOfSpan(own, Host, lo, hi);
    if lo <= i < hi {
      HostOwnersAt(h, b[lo..hi], i - lo);
      assert b[lo..hi][..i - lo + 1] == b[lo..i + 1];
    }
  }

  /** Only the server part is assigned anew. */
  lemma OwnersSplice(b: string, connect: bool, lo: int, hi: int, i: nat)
    requires IsSpan(UrlOwners(UrlStart(connect), b), Host, lo, hi) && i < |b|
    ensures var own := UrlOwners(UrlStart(connect), b);
            var t := HostOwners(ServerPartStart(FoundAt(UrlStart(connect), b)), b[lo..hi]);
            Owners(b, connect)[i] == if lo <= i < hi then t[i - lo] else own[i]
  {
    hide UrlOwners, HostOwners, FoundAt, OwnerAt, IsSpan;
    OwnerAtServer(UrlOwners(UrlStart(connect), b), b, ServerPartStart(FoundAt(UrlStart(connect), b)), lo, hi, i);
  }

  lemma OwnersWithoutServer(b: string, connect: bool)
    requires Some(Host) !in UrlOwners(UrlStart(connect), b)
    ensures Owners(b, connect) == UrlOwners(UrlStart(connect), b)
  {
    hide UrlOwners, FoundAt, HostRun;
  }

  lemma CoveredOutside(present: bool, r: Range, own: seq<Owner>, all: seq<Owner>, lo: int, hi: int, f: UrlField)
    requires Covered(present, r, own, f) && |own| == |all|
    requires forall i :: 0 <= i < |own| && !(lo <= i < hi) ==> all[i] == own[i]
    requires forall i :: 0 <= i < |own| && lo <= i < hi ==> own[i] != Some(f) && all[i] != Some(f)
    ensures Covered(present, r, all, f)
  {
  }

  lemma CoveredInside(present: bool, r: Range, own: seq<Owner>, all: seq<Owner>, lo: int, hi: int, f: UrlField)
    requires Covered(present, r, own, f) && 0 <= lo <= hi == |own| <= |all|
    requires forall i :: 0 <= i < |all| && !(lo <= i < hi) ==> all[i] != Some(f)
    requires forall i :: 0 <= i < lo ==> own[i] != Some(f)
    requires forall i :: lo <= i < hi ==> all[i] == own[i]
    ensures Covered(present, r, all, f)
  {
  }

  lemma HostOwnersField(h: HostState, b: string, i: nat)
    requires i < |b|
    ensures HostOwners(h, b)[i].Some? ==> HostOwners(h, b)[i].value in SERVER_FIELDS
    ensures HostOwners(h, b)[i] == Some(Port) ==> IsNum(b[i])
  {
    hide HostOwners;
    HostOwnersAt(h, b, i);
    HostRankIsField(HostRun(h, b[..i + 1]));
    assert b[..i + 1][..i] == b[..i];
  }

  function ServerOwners(b: string, connect: bool, lo: nat, hi: nat): seq<Owner>
    requires lo <= hi <= |b|
  {
    HostOwners(ServerPartStart(FoundAt(UrlStart(connect), b)), b[lo..hi])
  }

  lemma SpliceAt(b: string, connect: bool, lo: nat, hi: nat, i: nat)
    requires lo < hi <= |b| && i < |b| && IsSpan(UrlOwners(UrlStart(connect), b), Host, lo, hi)
    ensures var t := ServerOwners(b, connect, lo, hi);
            && |t| == hi - lo
            && Owners(b, connect)[i] == (if lo <= i < hi then t[i - lo] else UrlOwners(UrlStart(connect), b)[i])
            && (lo <= i < hi && t[i - lo].Some? ==> t[i - lo].value in SERVER_FIELDS)
            && (lo <= i < hi && t[i - lo] == Some(Port) ==> IsNum(b[i]))
  {
    hide UrlOwners, HostOwners, FoundAt, Owners, IsSpan, UrlRun, HostRun, UrlStart, ServerPartStart, IsNum;
    OwnersSplice(b, connect, lo, hi, i);
    if lo <= i < hi {
      HostOwnersField(ServerPartStart(FoundAt(UrlStart(connect), b)), b[lo..hi], i - lo);
      assert b[lo..hi][i - lo] == b[i];
    }
  }

  ghost predicate Spliced(b: string, own: seq<Owner>, part: seq<Owner>, all: seq<Owner>, lo: nat, hi: nat) {
    && lo < hi == |part| <= |own| == |all| == |b|
    && (forall i :: 0 <= i < lo ==> part[i].None?)
    && (forall i :: 0 <= i < |own| ==> all[i] == if lo <= i < hi then part[i] else own[i])
    && (forall i :: lo <= i < hi && part[i].Some? ==> part[i].value in SERVER_FIELDS)
    && (forall i :: lo <= i < hi && part[i] == Some(Port) ==> IsNum(b[i]))
  }

  ghost predicate SplicedAt(b: string, own: seq<Owner>, t: seq<Owner>, all: seq<Owner>, lo: nat, hi: nat, i: int)
    requires lo <= hi == lo + |t| <= |own| == |all| == |b| && 0 <= i < |b|
  {
    && all[i] == (if lo <= i < hi then t[i - lo] else own[i])
    && (lo <= i < hi && t[i - lo].Some? ==> t[i - lo].value in SERVER_FIELDS)
    && (lo <= i < hi && t[i - lo] == Some(Port) ==> IsNum(b[i]))
  }

  lemma SpliceSeq(b: string, own: seq<Owner>, t: seq<Owner>, all: seq<Owner>, lo: nat, hi: nat)
    requires lo < hi == lo + |t| <= |own| == |all| == |b|
    requires forall i :: 0 <= i < |b| ==> SplicedAt(b, own, t, all, lo, hi, i)
    ensures Spliced(b, own, Blank(lo) + t, all, lo, hi)
  {
    hide IsNum;
    var part := Blank(lo) + t;
    forall i | 0 <= i < |b|
      ensures all[i] == if lo <= i < hi then part[i] else own[i]
      ensures lo <= i < hi ==> (part[i].Some? ==> part[i].value in SERVER_FIELDS) && (part[i] == Some(Port) ==> IsNum(b[i]))
    {
      assert SplicedAt(b, own, t, all, lo, hi, i);
    }
  }

  lemma SpliceAll(b: string, connect: bool, lo: nat, hi: nat)
    requires lo < hi <= |b| && IsSpan(UrlOwners(UrlStart(connect), b), Host, lo, hi)
    ensures Spliced(b, UrlOwners(UrlStart(connect), b), Blank(lo) + ServerOwners(b, connect, lo, hi), Owners(b, connect), lo, hi)
  {
    hide UrlOwners, Owners, ServerOwners, IsSpan, IsNum, UrlStart, Spliced, Blank;
    SpliceAt(b, connect, lo, hi, lo);
    forall i | 0 <= i < |b|
      ensures SplicedAt(b, UrlOwners(UrlStart(connect), b), ServerOwners(b, connect, lo, hi), Owners(b, connect), lo, hi, i)
    {
      SpliceAt(b, connect, lo, hi, i);
    }
    SpliceSeq(b, UrlOwners(UrlStart(connect), b), ServerOwners(b, connect, lo, hi), Owners(b, connect), lo, hi);
  }

  /** The ranges after both loops. */
  lemma CoversSplice(b: string, connect: bool, lo: nat, hi: nat,
                     present: set<UrlField>, data: map<UrlField, Range>, server: set<UrlField>, after: map<UrlField, Range>)
    requires Covers(URL_FIELDS, present, data, UrlOwners(UrlStart(connect), b))
    requires lo <= hi <= |b| && Covers(SERVER_FIELDS, server, after, Blank(lo) + ServerOwners(b, connect, lo, hi))
    requires Host in present && Host in server && Userinfo !in present && Port !in present && server <= SERVER_FIELDS
    requires forall f: UrlField :: f in data && f in after
    requires forall f :: f !in SERVER_FIELDS ==> after[f] == data[f]
    requires lo < hi && IsSpan(UrlOwners(UrlStart(connect), b), Host, lo, hi)
    ensures Covers(URL_FIELDS, present + (server - {Host}), after, Owners(b, connect))
  {
    hide *;
    SpliceAll(b, connect, lo, hi);
    CoversMerge(b, UrlOwners(UrlStart(connect), b), Blank(lo) + ServerOwners(b, connect, lo, hi), Owners(b, connect), lo, hi, present, data, server, after);
  }

  lemma AnyField(f: UrlField)
    ensures f in URL_FIELDS
  {
    match f case Schema => case _ =>
  }

  lemma CoversMerge(b: string, own: seq<Owner>, part: seq<Owner>, all: seq<Owner>, lo: int, hi: int,
                    present: set<UrlField>, data: map<UrlField, Range>, server: set<UrlField>, after: map<UrlField, Range>)
    requires Covers(URL_FIELDS, present, data, own) && Covers(SERVER_FIELDS, server, after, part)
    requires forall f: UrlField :: f in data && f in after
    requires forall f :: f !in SERVER_FIELDS ==> after[f] == data[f]
    requires Host in present && Host in server && Userinfo !in present && Port !in present && server <= SERVER_FIELDS
    requires 0 <= lo <= hi && Spliced(b, own, part, all, lo, hi) && IsSpan(own, Host, lo, hi)
    ensures Covers(URL_FIELDS, present + (server - {Host}), after, all)
  {
    hide Covered;
    forall f: UrlField
      ensures Covered(f in present + (server - {Host}), after[f], all, f)
    {
      AnyField(f);
      assert Covered(f in present, data[f], own, f);
      if f in SERVER_FIELDS {
        assert Covered(f in server, after[f], part, f);
        CoveredAbsent(data[f], own, f);
        CoveredInside(f in server, after[f], part, all, lo, hi, f);
      } else {
        CoveredOutside(f in present, data[f], own, all, lo, hi, f);
      }
    }
  }

  lemma CoversSpan(present: set<UrlField>, data: map<UrlField, Range>, own: seq<Owner>, f: UrlField)
    requires Covers(URL_FIELDS, present, data, own)
    ensures f in data && (f in present ==> IsSpan(own, f, data[f].off, data[f].off + data[f].len) && data[f].len > 0)
    ensures f !in present ==> Some(f) !in own
  {
    AnyField(f);
  }

  lemma CoveredAbsent(r: Range, own: seq<Owner>, f: UrlField)
    ensures Covered(false, r, own, f) ==> forall i :: 0 <= i < |own| ==> own[i] != Some(f)
  {
  }

  lemma SpanUnique(own: seq<Owner>, f: UrlField, lo: int, hi: int)
    requires IsSpan(own, f, lo, hi)
    ensures forall l, h :: IsSpan(own, f, l, h) ==> l == lo && h == hi
  {
    forall l, h | IsSpan(own, f, l, h)
      ensures l == lo && h == hi
    {
      assert own[lo] == Some(f) && own[l] == Some(f) && own[hi - 1] == Some(f) && own[h - 1] == Some(f);
    }
  }

  lemma NoSpan(own: seq<Owner>, f: UrlField)
    requires Some(f) !in own
    ensures forall l, h :: !IsSpan(own, f, l, h)
  {
    forall l, h
      ensures !IsSpan(own, f, l, h)
    {
      assert 0 <= l < |own| ==> own[l] != Some(f);
    }
  }

  lemma SpanIn(own: seq<Owner>, f: UrlField, lo: int, hi: int)
    requires IsSpan(own, f, lo, hi)
    ensures Some(f) in own && 0 <= lo < hi <= |own|
  {
    assert own[lo] == Some(f);
  }

  lemma ServerVerdict(own: seq<Owner>, b: string, h: HostState, present: set<UrlField>, data: map<UrlField, Range>)
    requires |own| == |b| && Covers(URL_FIELDS, present, data, own)
    ensures Host in present ==>
              var lo, hi := data[Host].off, data[Host].off + data[Host].len;
              0 <= lo < hi <= |b| && IsSpan(own, Host, lo, hi) && (ServerOk(own, b, h) <==> Ends(HostRun(h, b[lo..hi])))
    ensures Host !in present && Schema in present ==> !ServerOk(own, b, h)
    ensures Host !in present && Schema !in present ==> ServerOk(own, b, h)
  {
    hide Covers, IsSpan, HostRun;
    CoversSpan(present, data, own, Host);
    CoversSpan(present, data, own, Schema);
    if Schema in present { SpanIn(own, Schema, data[Schema].off, data[Schema].off + data[Schema].len); }
    if Host in present {
      SpanIn(own, Host, data[Host].off, data[Host].off + data[Host].len);
      SpanUnique(own, Host, data[Host].off, data[Host].off + data[Host].len);
    } else {
      NoSpan(own, Host);
    }
  }

  lemma PortVerdict(own: seq<Owner>, b: string, present: set<UrlField>, data: map<UrlField, Range>)
    requires |own| == |b| && Covers(URL_FIELDS, present, data, own)
    ensures Port in present ==>
              var lo, hi := data[Port].off, data[Port].off + data[Port].len;
              0 <= lo < hi <= |b| && IsSpan(own, Port, lo, hi) && (PortOk(own, b) <==> FitsPort(b[lo..hi]))
    ensures Port !in present ==> PortOk(own, b)
  {
    hide Covers, IsSpan, FitsPort;
    CoversSpan(present, data, own, Port);
    if Port in present {
      SpanIn(own, Port, data[Port].off, data[Port].off + data[Port].len);
      SpanUnique(own, Port, data[Port].off, data[Port].off + data[Port].len);
    } else {
      NoSpan(own, Port);
    }
  }

  lemma ConnectVerdict(own: seq<Owner>, present: set<UrlField>, data: map<UrlField, Range>)
    requires Covers(URL_FIELDS, present, data, own) && present <= URL_FIELDS
    ensures OnlyHostAndPort(own) <==> present == {Host, Port}
  {
    hide Covers, IsSpan;
    forall f: UrlField
      ensures f in present <==> Some(f) in own
    {
      CoversSpan(present, data, own, f);
      if f in present { SpanIn(own, f, data[f].off, data[f].off + data[f].len); }
    }
    if OnlyHostAndPort(own) {
      assert Some(Host) in own && Some(Port) in own;
      forall f: UrlField
        ensures f in present <==> f in {Host, Port}
      {
        assert Some(f) in own <==> f == Host || f == Port;
      }
    }
  }

  // The order of the fields.

  function Position(f: UrlField): nat {
    match f
    case Schema => 0
    case Userinfo => 1
    case Host => 2
    case Port => 3
    case Path => 4
    case Query => 5
    case Fragment => 6
  }

  lemma {:induction false} UrlRunRank(s: UrlState, b: string, i: nat, j: nat)
    requires i <= j <= |b| && !UrlRun(s, b[..j]).UrlDead?
    ensures !UrlRun(s, b[..i]).UrlDead? && Rank(UrlRun(s, b[..i])) <= Rank(UrlRun(s, b[..j]))
    decreases j
  {
    if i < j {
      assert b[..j][..j - 1] == b[..j - 1];
      RankRises(UrlRun(s, b[..j - 1]), b[j - 1]);
      UrlRunRank(s, b, i, j - 1);
    }
  }

  lemma {:induction false} HostRunRank(s: HostState, b: string, i: nat, j: nat)
    requires i <= j <= |b| && !HostRun(s, b[..j]).HostDead?
    ensures !HostRun(s, b[..i]).HostDead? && HostRank(HostRun(s, b[..i])) <= HostRank(HostRun(s, b[..j]))
    decreases j
  {
    if i < j {
      assert b[..j][..j - 1] == b[..j - 1];
      HostRankRises(HostRun(s, b[..j - 1]), b[j - 1]);
      HostRunRank(s, b, i, j - 1);
    }
  }

  lemma UrlOwnersOrdered(s: UrlState, b: string, i: nat, j: nat)
    requires i <= j < |b| && !UrlRun(s, b).UrlDead? && UrlOwners(s, b)[i].Some? && UrlOwners(s, b)[j].Some?
    ensures var f, g := UrlOwners(s, b)[i].value, UrlOwners(s, b)[j].value;
            f == g || Position(f) < Position(g)
    ensures UrlOwners(s, b)[i].value != Port && UrlOwners(s, b)[i].value != Userinfo
  {
    hide UrlRun, UrlOwners;
    UrlOwnersAt(s, b, i);
    UrlOwnersAt(s, b, j);
    assert b[..|b|] == b;
    UrlRunRank(s, b, j + 1, |b|);
    UrlRunRank(s, b, i + 1, j + 1);
    RankIsField(UrlRun(s, b[..i + 1]));
    RankIsField(UrlRun(s, b[..j + 1]));
  }

  lemma HostOwnersOrdered(s: HostState, b: string, i: nat, j: nat)
    requires i <= j < |b| && !HostRun(s, b).HostDead? && HostOwners(s, b)[i].Some? && HostOwners(s, b)[j].Some?
    ensures var f, g := HostOwners(s, b)[i].value, HostOwners(s, b)[j].value;
            Position(f) <= Position(g) && f in SERVER_FIELDS && g in SERVER_FIELDS
  {
    hide HostRun, HostOwners;
    HostOwnersAt(s, b, i);
    HostOwnersAt(s, b, j);
    assert b[..|b|] == b;
    HostRunRank(s, b, j + 1, |b|);
    HostRunRank(s, b, i + 1, j + 1);
    HostRankIsField(HostRun(s, b[..i + 1]));
    HostRankIsField(HostRun(s, b[..j + 1]));
  }

  /** The server part of an accepted URL, if there is one, lies between `lo` and `hi`. */
  ghost predicate ServerAt(b: string, connect: bool, lo: nat, hi: nat) {
    var own := UrlOwners(UrlStart(connect), b);
    Some(Host) in own ==> lo < hi <= |b| && IsSpan(own, Host, lo, hi)
  }

  lemma OwnersOrdered(b: string, connect: bool, lo: nat, hi: nat, i: nat, j: nat)
    requires !UrlRun(UrlStart(connect), b).UrlDead? && ServerAt(b, connect, lo, hi)
    requires ServerOk(UrlOwners(UrlStart(connect), b), b, ServerPartStart(FoundAt(UrlStart(connect), b)))
    requires i <= j < |b| && Owners(b, connect)[i].Some? && Owners(b, connect)[j].Some?
    ensures Position(Owners(b, connect)[i].value) <= Position(Owners(b, connect)[j].value)
  {
    hide UrlRun, UrlOwners, Owners, HostRun, HostOwners, FoundAt, OwnerAt;
    var s := UrlStart(connect);
    var own := UrlOwners(s, b);
    if Some(Host) !in own {
      OwnersWithoutServer(b, connect);
      UrlOwnersOrdered(s, b, i, j);
    } else {
      SpliceAt(b, connect, lo, hi, i);
      SpliceAt(b, connect, lo, hi, j);
      assert own[i].Some? && own[j].Some?;
      UrlOwnersOrdered(s, b, i, j);
      if lo <= i && j < hi {
        HostOwnersOrdered(ServerPartStart(FoundAt(s, b)), b[lo..hi], i - lo, j - lo);
      }
    }
  }

  /** Set fields are nonempty, lie within the URL, and follow each other without overlap. */
  ghost predicate WellSplit(present: set<UrlField>, data: map<UrlField, Range>, n: nat) {
    && (forall f <- present :: f in data && data[f].len > 0 && data[f].off + data[f].len <= n)
    && (forall f, g :: f in present && g in present && Position(f) < Position(g) ==> data[f].off + data[f].len <= data[g].off)
  }

  lemma RangesOrdered(b: string, connect: bool, lo: nat, hi: nat, present: set<UrlField>, data: map<UrlField, Range>)
    requires !UrlRun(UrlStart(connect), b).UrlDead? && ServerAt(b, connect, lo, hi)
    requires ServerOk(UrlOwners(UrlStart(connect), b), b, ServerPartStart(FoundAt(UrlStart(connect), b)))
    requires Covers(URL_FIELDS, present, data, Owners(b, connect))
    ensures WellSplit(present, data, |b|)
  {
    hide UrlRun, UrlOwners, Owners, HostRun, FoundAt, ServerAt, ServerOk, Covers, IsSpan;
    var own := Owners(b, connect);
    forall f <- present
      ensures f in data && data[f].len > 0 && data[f].off + data[f].len <= |b|
    {
      CoversSpan(present, data, own, f);
      SpanIn(own, f, data[f].off, data[f].off + data[f].len);
    }
    forall f, g | f in present && g in present && Position(f) < Position(g)
      ensures data[f].off + data[f].len <= data[g].off
    {
      CoversSpan(present, data, own, f);
      CoversSpan(present, data, own, g);
      var last, first := data[f].off + data[f].len - 1, data[g].off;
      SpanEnds(own, f, data[f].off, last + 1);
      SpanEnds(own, g, first, first + data[g].len);
      if first <= last { OwnersOrdered(b, connect, lo, hi, first, last); }
    }
  }

  lemma SpanEnds(own: seq<Owner>, f: UrlField, lo: int, hi: int)
    requires IsSpan(own, f, lo, hi)
    ensures 0 <= lo < hi <= |own| && own[lo] == Some(f) && own[hi - 1] == Some(f)
  {
  }

  lemma PortDigits(b: string, connect: bool, lo: nat, hi: nat, from: nat, to: nat)
    requires ServerAt(b, connect, lo, hi) && !UrlRun(UrlStart(connect), b).UrlDead?
    requires from < to <= |b| && IsSpan(Owners(b, connect), Port, from, to)
    ensures forall x <- b[from..to] :: IsNum(x)
  {
    hide UrlRun, UrlOwners, Owners, HostRun, FoundAt, IsNum;
    forall i | from <= i < to
      ensures IsNum(b[i])
    {
      if Some(Host) !in UrlOwners(UrlStart(connect), b) {
        OwnersWithoutServer(b, connect);
        UrlOwnersOrdered(UrlStart(connect), b, i, i);
        assert false;
      } else {
        SpliceAt(b, connect, lo, hi, i);
        if !(lo <= i < hi) {
          UrlOwnersOrdered(UrlStart(connect), b, i, i);
          assert false;
        }
      }
    }
  }

  /** The fields after both loops. */
  ghost predicate Located(buf: string, connect: bool, present: set<UrlField>, data: map<UrlField, Range>, lo: nat, hi: nat) {
    && !UrlRun(UrlStart(connect), buf).UrlDead?
    && ServerAt(buf, connect, lo, hi)
    && ServerOk(UrlOwners(UrlStart(connect), buf), buf, ServerPartStart(FoundAt(UrlStart(connect), buf)))
    && Covers(URL_FIELDS, present, data, Owners(buf, connect))
    && (Schema in present ==> Host in present)
  }

  /** Both loops: every field is where its bytes are, unless the URL is malformed. */
  method LocateFields(buf: string, connect: bool, u: HttpParserUrl) returns (failed: bool, ghost lo: nat, ghost hi: nat)
    requires |buf| <= 0xffff && u.Complete() && u.fieldData[Host] == Range(0, 0)
    modifies u
    ensures u.Complete()
    ensures failed ==> !Accepted(buf, connect)
    ensures !failed ==> u.port == 0 && Located(buf, connect, u.fieldSet, u.fieldData, lo, hi)
  {
    hide UrlRun, UrlOwners, Owners, HostRun, HostOwners, FoundAt, Covers, IsSpan, ServerOk, Ends, HostRank, UrlStart,
      ServerPartStart, OnlyHostAndPort, PortOk;
    lo, hi := 0, 0;
    var foundAt;
    failed, foundAt := ScanUrl(buf, connect, u);
    if failed { return; }
    ghost var present, data := u.fieldSet, u.fieldData;
    ghost var own, h := UrlOwners(UrlStart(connect), buf), ServerPartStart(foundAt);
    ServerVerdict(own, buf, h, present, data);
    if Schema in u.fieldSet || Host in u.fieldSet {
      ghost var server;
      lo, hi := data[Host].off, data[Host].off + data[Host].len;
      failed, server := ParseHost(buf, u, foundAt);
      NoServerFails(foundAt, buf);
      if failed { return; }
      EndsAtHost(HostRun(h, buf[lo..hi]));
      CoversSplice(buf, connect, lo, hi, present, data, server, u.fieldData);
    } else {
      CoversSpan(present, data, own, Host);
      OwnersWithoutServer(buf, connect);
    }
  }

  lemma NoServerFails(foundAt: bool, b: string)
    ensures !Ends(HostRun(ServerPartStart(foundAt), b[0..0]))
  {
  }

  lemma EndsAtHost(h: HostState)
    ensures Ends(h) ==> HostRank(h) >= 4
  {
  }

  /** Splits a URL. It is accepted exactly when the two transition functions accept it, and then each
      field's range is exactly the bytes that field owns. */
  method ParseUrl(buf: string, connect: bool, u: HttpParserUrl) returns (failed: bool)
    requires |buf| <= 0xffff && u.Complete() && u.fieldData[Host] == Range(0, 0)
    modifies u
    ensures u.Complete()
    ensures failed <==> !Accepted(buf, connect)
    ensures !failed ==> Covers(URL_FIELDS, u.fieldSet, u.fieldData, Owners(buf, connect)) && WellSplit(u.fieldSet, u.fieldData, |buf|)
    ensures !failed && Schema in u.fieldSet ==> Host in u.fieldSet
    ensures !failed ==>
              if Port in u.fieldSet
              then
                var t := buf[u.fieldData[Port].off..u.fieldData[Port].off + u.fieldData[Port].len];
                FitsPort(t) && u.port == DecVal(t)
              else u.port == 0
  {
    hide UrlRun, UrlOwners, Owners, HostRun, HostOwners, FoundAt, Covers, IsSpan, ServerOk, ServerAt, OnlyHostAndPort,
      PortOk, UrlStart, ServerPartStart;
    ghost var lo, hi;
    failed, lo, hi := LocateFields(buf, connect, u);
    if failed { return; }
    ghost var own := Owners(buf, connect);
    RangesOrdered(buf, connect, lo, hi, u.fieldSet, u.fieldData);
    EveryField(u.fieldSet);
    ConnectVerdict(own, u.fieldSet, u.fieldData);
    PortVerdict(own, buf, u.fieldSet, u.fieldData);
    if connect && u.fieldSet != {Host, Port} { return true; }
    if Port in u.fieldSet {
      var off: int, len: int := u.fieldData[Port].off, u.fieldData[Port].len;
      PortDigits(buf, connect, lo, hi, off, off + len);
      var v := ReadPort(buf[off..off + len]);
      if v.None? { return true; }
      u.port := v.value;
    }
  }

  lemma EveryField(present: set<UrlField>)
    ensures present <= URL_FIELDS
  {
    forall f <- present ensures f in URL_FIELDS { AnyField(f); }
  }
}
