/** The request target: which texts the parser takes for one. */
module RequestTargets {
  import opened Chars
  import opened Options
  import opened ParserTypes
  import opened Transition

  /** The host, by name or in brackets. */
  datatype Place = Named(name: string) | Bracketed(address: string)

  /** What follows the server, or is all there is. A part may be there and empty. */
  datatype Rest = Rest(path: string, query: Option<string>, fragment: Option<string>)

  /** `between` is what stands for the two slashes, which this build does not check. */
  datatype Target =
    | Origin(rest: Rest)
    | Absolute(schema: string, between: string, place: Place, port: Option<string>, rest: Rest)
    | Authority(place: Place, port: Option<string>, rest: Rest)

  function PlaceText(h: Place): string {
    if h.Named? then h.name else "[" + h.address + "]"
  }

  function After(delimiter: string, part: Option<string>): string {
    if part.Some? then delimiter + part.value else ""
  }

  function RestText(r: Rest): string {
    r.path + After("?", r.query) + After("#", r.fragment)
  }

  /** What comes before the host. */
  function BeforeHost(x: Target): string {
    if x.Absolute? then x.schema + ":" + x.between else ""
  }

  function Front(x: Target): string {
    if x.Origin? then "" else BeforeHost(x) + PlaceText(x.place) + After(":", x.port)
  }

  function TargetText(x: Target): string {
    Front(x) + RestText(x.rest)
  }

  predicate PlaceOk(h: Place) {
    match h
    case Named(name) => name != "" && IsAlphaNum(name[0]) && forall c <- name :: IsHostChar(c)
    case Bracketed(address) => forall c <- address :: IsHex(c) || c == ':'
  }

  predicate PortOk(port: Option<string>) {
    port.Some? ==> forall c <- port.value :: IsNum(c)
  }

  predicate IsSchema(s: string) {
    s != "" && forall c <- s :: IsAlpha(c)
  }

  predicate RestOk(r: Rest) {
    && (forall c <- r.path :: IsUrlChar(c))
    && (r.query.Some? ==> forall c <- r.query.value :: IsUrlChar(c) || c == '?')
    && (r.fragment.Some? ==> forall c <- r.fragment.value :: IsUrlChar(c) || c == '?' || c == '#')
  }

  /** Nothing follows the server. */
  predicate Bare(r: Rest) {
    r == Rest("", None, None)
  }

  /** CONNECT names a server; any other method a path, or a server by its schema. A fragment needs a path or a query
      before it. */
  predicate TargetOk(x: Target, connect: bool) {
    && RestOk(x.rest)
    && match x
       case Origin(r) => !connect && r.path != "" && (r.path[0] == '/' || r.path[0] == '*')
       case Absolute(schema, between, h, port, r) => !connect && IsSchema(schema) && |between| == 2 && ServerOk(h, port, r)
       case Authority(h, port, r) => connect && ServerOk(h, port, r)
  }

  predicate ServerOk(h: Place, port: Option<string>, r: Rest) {
    && PlaceOk(h) && PortOk(port) && (r.path != "" ==> r.path[0] == '/')
    && (r.fragment.Some? ==> r.path != "" || r.query.Some?)
  }

  // The states of the parser over a target.

  /** Before the target, in a state of it, or no longer in it. */
  datatype Spot = Ahead | In(step: UrlStep) | Off

  function Move(connect: bool, s: Spot, c: char): Spot {
    match s
    case Ahead =>
      if connect then Taken(UrlByte(ReqHostStart, c))
      else if c == '/' || c == '*' then In(ReqPath)
      else if IsAlpha(c) then In(ReqSchema)
      else Off
    case In(u) => if UrlByte(u, c).Recheck? then Taken(UrlByte(UrlByte(u, c).step, c)) else Taken(UrlByte(u, c))
    case Off => Off
  }

  function Taken(m: UrlMove): Spot {
    if m.To? then In(m.step) else Off
  }

  function Spell(connect: bool, s: Spot, t: string): Spot {
    if t == "" then s else Move(connect, Spell(connect, s, t[..|t| - 1]), t[|t| - 1])
  }

  /** A target may end here. */
  predicate MayEnd(u: UrlStep) {
    !u.ReqSchema? && !u.ReqSchemaSlash? && !u.ReqSchemaSlashSlash? && !u.ReqHostStart? && !u.ReqHostIpv6?
  }

  lemma {:induction false} SpellOn(connect: bool, s: Spot, a: string, b: string)
    ensures Spell(connect, s, a + b) == Spell(connect, Spell(connect, s, a), b)
    decreases |b|
  {
    hide Move;
    if b == "" {
      assert a + b == a;
    } else {
      var n := |b| - 1;
      SpellOn(connect, s, a, b[..n]);
      assert (a + b)[..|a + b| - 1] == a + b[..n] && (a + b)[|a + b| - 1] == b[n];
    }
  }

  lemma SpellOne(connect: bool, s: Spot, c: char)
    ensures Spell(connect, s, [c]) == Move(connect, s, c)
  {
    hide Move;
    assert [c][..0] == "";
  }

  lemma SpellNothing(connect: bool, s: Spot)
    ensures Spell(connect, s, "") == s
  {
  }

  /** A piece `[first] + more` that leads to `u` and stays there. */
  lemma {:induction false} SpellThrough(connect: bool, s: Spot, t: string, u: UrlStep)
    requires t != "" && Move(connect, s, t[0]) == In(u) && forall i :: 1 <= i < |t| ==> Move(connect, In(u), t[i]) == In(u)
    ensures Spell(connect, s, t) == In(u)
    decreases |t|
  {
    hide Move;
    var n := |t| - 1;
    if n == 0 {
      SpellOne(connect, s, t[0]);
      assert t == [t[0]];
    } else {
      assert t[..n][0] == t[0];
      SpellThrough(connect, s, t[..n], u);
    }
  }

  // Well-formed targets are spelt.

  lemma SchemaMoves(c: char)
    ensures IsAlpha(c) ==> Move(false, Ahead, c) == In(ReqSchema) && Move(false, In(ReqSchema), c) == In(ReqSchema)
    ensures Move(false, In(ReqSchema), ':') == In(ReqSchemaSlash)
    ensures Move(false, In(ReqSchemaSlash), c) == In(ReqSchemaSlashSlash) && Move(false, In(ReqSchemaSlashSlash), c) == In(ReqHostStart)
  {
  }

  lemma SpellSchema(schema: string, between: string)
    requires IsSchema(schema) && |between| == 2
    ensures Spell(false, Ahead, schema + ":" + between) == In(ReqHostStart)
  {
    hide Move, Spell, IsAlpha;
    forall i | 0 <= i < |schema|
      ensures Move(false, if i == 0 then Ahead else In(ReqSchema), schema[i]) == In(ReqSchema)
    {
      assert IsAlpha(schema[i]);
      SchemaMoves(schema[i]);
    }
    SpellThrough(false, Ahead, schema, ReqSchema);
    SpellOn(false, Ahead, schema, ":");
    SchemaMoves(between[0]);
    SpellOne(false, In(ReqSchema), ':');
    SpellOn(false, Ahead, schema + ":", [between[0]]);
    SpellOne(false, In(ReqSchemaSlash), between[0]);
    SpellOn(false, Ahead, schema + ":" + [between[0]], [between[1]]);
    SchemaMoves(between[1]);
    SpellOne(false, In(ReqSchemaSlashSlash), between[1]);
    assert schema + ":" + [between[0]] + [between[1]] == schema + ":" + between;
  }

  function PlaceStep(h: Place): UrlStep {
    if h.Named? then ReqHost else ReqHostDone
  }

  lemma HostMoves(connect: bool, s: Spot, c: char)
    requires s == In(ReqHostStart) || (connect && s == Ahead)
    ensures IsAlphaNum(c) ==> Move(connect, s, c) == In(ReqHost)
    ensures Move(connect, s, '[') == In(ReqHostIpv6)
    ensures IsHostChar(c) ==> Move(connect, In(ReqHost), c) == In(ReqHost)
    ensures IsHex(c) || c == ':' ==> Move(connect, In(ReqHostIpv6), c) == In(ReqHostIpv6)
    ensures Move(connect, In(ReqHostIpv6), ']') == In(ReqHostDone)
  {
  }

  lemma SpellPlace(connect: bool, s: Spot, h: Place)
    requires (s == In(ReqHostStart) || (connect && s == Ahead)) && PlaceOk(h)
    ensures Spell(connect, s, PlaceText(h)) == In(PlaceStep(h))
  {
    hide Move, IsAlphaNum, IsHostChar, IsHex;
    if h.Named? {
      HostMoves(connect, s, h.name[0]);
      forall i | 1 <= i < |h.name|
        ensures Move(connect, In(ReqHost), h.name[i]) == In(ReqHost)
      {
        assert IsHostChar(h.name[i]);
        HostMoves(connect, s, h.name[i]);
      }
      SpellThrough(connect, s, h.name, ReqHost);
    } else {
      var t := "[" + h.address;
      HostMoves(connect, s, '[');
      forall i | 1 <= i < |t|
        ensures Move(connect, In(ReqHostIpv6), t[i]) == In(ReqHostIpv6)
      {
        assert t[i] == h.address[i - 1] && h.address[i - 1] in h.address;
        HostMoves(connect, s, t[i]);
      }
      SpellThrough(connect, s, t, ReqHostIpv6);
      SpellOn(connect, s, t, "]");
      SpellOne(connect, In(ReqHostIpv6), ']');
    }
  }

  function PortStep(h: Place, port: Option<string>): UrlStep {
    if port.Some? then ReqPort else PlaceStep(h)
  }

  predicate InServer(u: UrlStep) {
    u.ReqHost? || u.ReqHostDone? || u.ReqPort?
  }

  lemma PortMoves(connect: bool, u: UrlStep, c: char)
    ensures u.ReqHost? || u.ReqHostDone? ==> Move(connect, In(u), ':') == In(ReqPort)
    ensures IsNum(c) ==> Move(connect, In(ReqPort), c) == In(ReqPort)
    ensures InServer(u) ==> Move(connect, In(u), '/') == In(ReqPath) && Move(connect, In(u), '?') == In(ReqQueryStringStart)
  {
  }

  lemma SpellPort(connect: bool, h: Place, port: Option<string>)
    requires PortOk(port)
    ensures Spell(connect, In(PlaceStep(h)), After(":", port)) == In(PortStep(h, port))
  {
    hide Move, IsNum;
    if port.Some? {
      var t := ":" + port.value;
      PortMoves(connect, PlaceStep(h), ':');
      forall i | 1 <= i < |t|
        ensures Move(connect, In(ReqPort), t[i]) == In(ReqPort)
      {
        assert t[i] == port.value[i - 1] && t[i] in port.value;
        PortMoves(connect, PlaceStep(h), t[i]);
      }
      SpellThrough(connect, In(PlaceStep(h)), t, ReqPort);
    }
  }

  lemma RestMoves(connect: bool, c: char)
    ensures IsUrlChar(c) ==> Move(connect, In(ReqPath), c) == In(ReqPath)
    ensures Move(connect, In(ReqPath), '?') == In(ReqQueryStringStart) && Move(connect, In(ReqPath), '#') == In(ReqFragmentStart)
    ensures IsUrlChar(c) || c == '?' ==>
              (Move(connect, In(ReqQueryStringStart), c) == In(ReqQueryString) || Move(connect, In(ReqQueryStringStart), c) == In(ReqQueryStringStart))
              && Move(connect, In(ReqQueryString), c) == In(ReqQueryString)
    ensures Move(connect, In(ReqQueryStringStart), '#') == In(ReqFragmentStart) && Move(connect, In(ReqQueryString), '#') == In(ReqFragmentStart)
    ensures IsUrlChar(c) || c == '?' || c == '#' ==>
              (Move(connect, In(ReqFragmentStart), c) == In(ReqFragment) || Move(connect, In(ReqFragmentStart), c) == In(ReqFragmentStart))
              && Move(connect, In(ReqFragment), c) == In(ReqFragment)
  {
  }

  predicate InQuery(s: Spot) {
    s == In(ReqQueryStringStart) || s == In(ReqQueryString)
  }

  predicate InFragment(s: Spot) {
    s == In(ReqFragmentStart) || s == In(ReqFragment)
  }

  lemma {:induction false} SpellQuery(connect: bool, s: Spot, q: string)
    requires InQuery(s) && forall c <- q :: IsUrlChar(c) || c == '?'
    ensures InQuery(Spell(connect, s, q))
    decreases |q|
  {
    hide Move, IsUrlChar;
    if q != "" {
      var n := |q| - 1;
      assert forall c <- q[..n] :: c in q;
      SpellQuery(connect, s, q[..n]);
      assert q[n] in q;
      RestMoves(connect, q[n]);
    }
  }

  lemma {:induction false} SpellFragment(connect: bool, s: Spot, f: string)
    requires InFragment(s) && forall c <- f :: IsUrlChar(c) || c == '?' || c == '#'
    ensures InFragment(Spell(connect, s, f))
    decreases |f|
  {
    hide Move, IsUrlChar;
    if f != "" {
      var n := |f| - 1;
      assert forall c <- f[..n] :: c in f;
      SpellFragment(connect, s, f[..n]);
      assert f[n] in f;
      RestMoves(connect, f[n]);
    }
  }

  lemma SpellPath(connect: bool, s: Spot, t: string)
    requires t != "" && Move(connect, s, t[0]) == In(ReqPath) && forall c <- t :: IsUrlChar(c)
    ensures Spell(connect, s, t) == In(ReqPath)
  {
    hide Move, IsUrlChar;
    forall i | 1 <= i < |t|
      ensures Move(connect, In(ReqPath), t[i]) == In(ReqPath)
    {
      assert t[i] in t;
      RestMoves(connect, t[i]);
    }
    SpellThrough(connect, s, t, ReqPath);
  }

  /** Where a path, a query or a fragment may start. */
  predicate AtPath(connect: bool, s: Spot, r: Rest) {
    if r.path != "" then Move(connect, s, r.path[0]) == In(ReqPath)
    else s.In? && InServer(s.step) && (r.fragment.None? || r.query.Some?)
  }

  lemma SpellPathPart(connect: bool, s: Spot, r: Rest)
    requires RestOk(r) && AtPath(connect, s, r)
    ensures Spell(connect, s, r.path) == if r.path == "" then s else In(ReqPath)
  {
    hide Move, IsUrlChar;
    if r.path == "" { SpellNothing(connect, s); } else { SpellPath(connect, s, r.path); }
  }

  lemma SpellQueryPart(connect: bool, u: UrlStep, r: Rest)
    requires RestOk(r) && (InServer(u) || u.ReqPath?)
    ensures var s := Spell(connect, In(u), After("?", r.query)); if r.query.Some? then InQuery(s) else s == In(u)
  {
    hide Move, IsUrlChar;
    if r.query.Some? {
      PortMoves(connect, u, '?');
      RestMoves(connect, '?');
      SpellOne(connect, In(u), '?');
      SpellOn(connect, In(u), "?", r.query.value);
      SpellQuery(connect, In(ReqQueryStringStart), r.query.value);
    } else {
      SpellNothing(connect, In(u));
    }
  }

  lemma SpellFragmentPart(connect: bool, s: Spot, r: Rest)
    requires RestOk(r) && (r.fragment.Some? ==> s == In(ReqPath) || InQuery(s))
    ensures var q := Spell(connect, s, After("#", r.fragment)); if r.fragment.Some? then InFragment(q) else q == s
  {
    hide Move, IsUrlChar;
    if r.fragment.Some? {
      RestMoves(connect, '#');
      SpellOne(connect, s, '#');
      SpellOn(connect, s, "#", r.fragment.value);
      SpellFragment(connect, In(ReqFragmentStart), r.fragment.value);
    } else {
      SpellNothing(connect, s);
    }
  }

  /** From the server, or from the start of the target for one without. */
  lemma SpellRest(connect: bool, s: Spot, r: Rest)
    requires RestOk(r) && AtPath(connect, s, r)
    ensures var q := Spell(connect, s, RestText(r)); q.In? && MayEnd(q.step) && (!Bare(r) ==> !InServer(q.step))
  {
    hide Move, RestOk, Spell;
    SpellPathPart(connect, s, r);
    var u := if r.path == "" then s.step else ReqPath;
    SpellOn(connect, s, r.path, After("?", r.query));
    SpellQueryPart(connect, u, r);
    SpellFragmentPart(connect, Spell(connect, In(u), After("?", r.query)), r);
    SpellOn(connect, s, r.path + After("?", r.query), After("#", r.fragment));
  }

  lemma PathStarts(connect: bool, u: UrlStep, c: char)
    ensures !connect && (c == '/' || c == '*') ==> Move(connect, Ahead, c) == In(ReqPath)
    ensures InServer(u) && c == '/' ==> Move(connect, In(u), c) == In(ReqPath)
  {
  }

  lemma SpellServer(connect: bool, s: Spot, h: Place, port: Option<string>, r: Rest)
    requires (s == In(ReqHostStart) || (connect && s == Ahead)) && ServerOk(h, port, r) && RestOk(r)
    ensures var q := Spell(connect, s, PlaceText(h) + After(":", port) + RestText(r)); q.In? && MayEnd(q.step) && (!Bare(r) ==> !InServer(q.step))
  {
    hide Move, PlaceOk, PortOk, RestOk, RestText, PlaceText, Spell;
    SpellPlace(connect, s, h);
    SpellPort(connect, h, port);
    SpellOn(connect, s, PlaceText(h), After(":", port));
    var u := PortStep(h, port);
    if r.path != "" { PathStarts(connect, u, r.path[0]); }
    SpellRest(connect, In(u), r);
    SpellOn(connect, s, PlaceText(h) + After(":", port), RestText(r));
  }

  lemma SpellAbsolute(schema: string, between: string, h: Place, port: Option<string>, r: Rest)
    requires IsSchema(schema) && |between| == 2 && ServerOk(h, port, r) && RestOk(r)
    ensures var q := Spell(false, Ahead, TargetText(Absolute(schema, between, h, port, r))); q.In? && MayEnd(q.step) && (!Bare(r) ==> !InServer(q.step))
  {
    hide Move, Spell, RestOk, PortOk, ServerOk, IsSchema, RestText, PlaceText, After, MayEnd;
    SpellSchema(schema, between);
    SpellServer(false, In(ReqHostStart), h, port, r);
    var a, b := schema + ":" + between, PlaceText(h) + After(":", port);
    SpellOn(false, Ahead, a, b + RestText(r));
    assert schema + ":" + between + PlaceText(h) + After(":", port) == a + b;
    assert TargetText(Absolute(schema, between, h, port, r)) == a + (b + RestText(r));
  }

  lemma SpellOrigin(r: Rest)
    requires TargetOk(Origin(r), false)
    ensures var q := Spell(false, Ahead, TargetText(Origin(r))); q.In? && MayEnd(q.step) && !InServer(q.step)
  {
    hide Move, Spell, RestOk, RestText, MayEnd;
    PathStarts(false, ReqHost, r.path[0]);
    SpellRest(false, Ahead, r);
    assert "" + RestText(r) == RestText(r);
  }

  /** The parser is at a place where the target may end, and behind the server if something follows it. */
  lemma SpellTarget(x: Target, connect: bool)
    requires TargetOk(x, connect)
    ensures var q := Spell(connect, Ahead, TargetText(x)); q.In? && MayEnd(q.step) && (!Bare(x.rest) ==> !InServer(q.step))
  {
    hide Move, Spell, RestOk, ServerOk, RestText, MayEnd;
    match x
    case Origin(r) => SpellOrigin(r);
    case Absolute(schema, between, h, port, r) => SpellAbsolute(schema, between, h, port, r);
    case Authority(h, port, r) =>
      SpellServer(connect, Ahead, h, port, r);
      assert "" + PlaceText(h) == PlaceText(h);
  }

  lemma FirstOfTarget(x: Target, connect: bool)
    requires TargetOk(x, connect)
    ensures TargetText(x) != "" && TargetText(x)[0] != ' '
  {
    match x
    case Origin(_) =>
    case Absolute(schema, _, _, _, _) => assert TargetText(x)[0] == schema[0] && IsAlpha(schema[0]);
    case Authority(h, _, _) => assert h.Named? ==> TargetText(x)[0] == h.name[0];
  }

  // What is spelt is well-formed, up to a place where the target may end.

  predicate FoundServer(connect: bool, x: Target) {
    TargetOk(x, connect) && !x.Origin? && Bare(x.rest)
  }

  /** The bytes `t` lead to `u`, and `x` is what has been found of the target; in the states before the end of a host,
      only its first parts count. */
  predicate Shows(connect: bool, u: UrlStep, t: string, x: Target) {
    match u
    case ReqSchema => !connect && x.Absolute? && IsSchema(x.schema) && t == x.schema
    case ReqSchemaSlash => !connect && x.Absolute? && IsSchema(x.schema) && t == x.schema + ":"
    case ReqSchemaSlashSlash => !connect && x.Absolute? && IsSchema(x.schema) && |x.between| == 1 && t == x.schema + ":" + x.between
    case ReqHostStart => !connect && x.Absolute? && IsSchema(x.schema) && |x.between| == 2 && t == x.schema + ":" + x.between
    case ReqHost => FoundServer(connect, x) && t == TargetText(x) && x.place.Named? && x.port.None?
    case ReqHostIpv6 => FoundServer(connect, x) && x.place.Bracketed? && x.port.None? && t == BeforeHost(x) + "[" + x.place.address
    case ReqHostDone => FoundServer(connect, x) && t == TargetText(x) && x.place.Bracketed? && x.port.None?
    case ReqPort => FoundServer(connect, x) && t == TargetText(x) && x.port.Some?
    case ReqPath => TargetOk(x, connect) && t == TargetText(x) && x.rest.path != "" && x.rest.query.None? && x.rest.fragment.None?
    case ReqQueryStringStart => TargetOk(x, connect) && t == TargetText(x) && x.rest.query.Some? && x.rest.fragment.None?
    case ReqQueryString => TargetOk(x, connect) && t == TargetText(x) && x.rest.query.Some? && x.rest.fragment.None?
    case ReqFragmentStart => TargetOk(x, connect) && t == TargetText(x) && x.rest.fragment.Some?
    case ReqFragment => TargetOk(x, connect) && t == TargetText(x) && x.rest.fragment.Some?
  }

  function WithRest(x: Target, r: Rest): Target {
    match x
    case Origin(_) => Origin(r)
    case Absolute(schema, between, h, port, _) => Absolute(schema, between, h, port, r)
    case Authority(h, port, _) => Authority(h, port, r)
  }

  lemma ShowFirst(connect: bool, c: char) returns (x: Target)
    requires Move(connect, Ahead, c).In?
    ensures Shows(connect, Move(connect, Ahead, c).step, [c], x)
  {
    if connect {
      x := Authority(if c == '[' then Bracketed("") else Named([c]), None, Rest("", None, None));
    } else if c == '/' || c == '*' {
      x := Origin(Rest([c], None, None));
    } else {
      x := Absolute([c], "", Named(""), None, Rest("", None, None));
    }
  }

  lemma ShowSchema(u: UrlStep, t: string, x: Target, c: char) returns (y: Target)
    requires Shows(false, u, t, x) && Move(false, In(u), c).In?
    requires u.ReqSchema? || u.ReqSchemaSlash? || u.ReqSchemaSlashSlash?
    ensures Shows(false, Move(false, In(u), c).step, t + [c], y)
  {
    if u.ReqSchema? {
      y := if c == ':' then x.(between := "") else x.(schema := x.schema + [c]);
    } else if u.ReqSchemaSlash? {
      y := x.(between := [c]);
    } else {
      y := x.(between := x.between + [c]);
    }
  }

  lemma ShowHost(t: string, x: Target, c: char) returns (y: Target)
    requires Shows(false, ReqHostStart, t, x) && Move(false, In(ReqHostStart), c).In?
    ensures Shows(false, Move(false, In(ReqHostStart), c).step, t + [c], y)
  {
    y := Absolute(x.schema, x.between, if c == '[' then Bracketed("") else Named([c]), None, Rest("", None, None));
  }

  lemma ShowName(connect: bool, t: string, x: Target, c: char) returns (y: Target)
    requires Shows(connect, ReqHost, t, x) && IsHostChar(c)
    ensures Shows(connect, ReqHost, t + [c], y)
  {
    hide IsHostChar, IsAlphaNum;
    y := x.(place := Named(x.place.name + [c]));
    assert y.place.name[0] == x.place.name[0];
  }

  lemma ShowAddress(connect: bool, t: string, x: Target, c: char) returns (y: Target)
    requires Shows(connect, ReqHostIpv6, t, x) && (IsHex(c) || c == ':' || c == ']')
    ensures Shows(connect, if c == ']' then ReqHostDone else ReqHostIpv6, t + [c], y)
  {
    hide IsHex;
    if c == ']' {
      y := x;
      assert t + [c] == BeforeHost(x) + PlaceText(x.place);
    } else {
      y := x.(place := Bracketed(x.place.address + [c]));
    }
  }

  lemma ShowPort(connect: bool, u: UrlStep, t: string, x: Target, c: char) returns (y: Target)
    requires InServer(u) && Shows(connect, u, t, x) && (if u.ReqPort? then IsNum(c) else c == ':')
    ensures Shows(connect, ReqPort, t + [c], y)
  {
    hide IsNum, PlaceText, PlaceOk, IsSchema, TargetText;
    y := x.(port := Some(if u.ReqPort? then x.port.value + [c] else ""));
    PortGrows(x, c);
  }

  lemma PortGrows(x: Target, c: char)
    requires !x.Origin? && Bare(x.rest)
    ensures x.port.Some? ==> TargetText(x.(port := Some(x.port.value + [c]))) == TargetText(x) + [c]
    ensures x.port.None? ==> TargetText(x.(port := Some(""))) == TargetText(x) + ":"
  {
    hide PlaceText;
    var y := x.(port := Some(if x.port.Some? then x.port.value + [c] else ""));
    assert RestText(y.rest) == "";
    assert Front(y) == Front(x) + if x.port.Some? then [c] else ":";
  }

  lemma RestGrows(x: Target, r: Rest, c: char)
    requires RestText(r) == RestText(x.rest) + [c]
    ensures TargetText(WithRest(x, r)) == TargetText(x) + [c]
  {
    hide RestText, PlaceText, After;
  }

  lemma ShowServerEnd(connect: bool, u: UrlStep, t: string, x: Target, c: char) returns (y: Target)
    requires InServer(u) && Shows(connect, u, t, x) && (c == '/' || c == '?')
    ensures Shows(connect, if c == '/' then ReqPath else ReqQueryStringStart, t + [c], y)
  {
    hide Front, PlaceOk, PortOk, IsSchema;
    var r := if c == '/' then Rest("/", None, None) else Rest("", Some(""), None);
    y := WithRest(x, r);
    RestGrows(x, r, c);
  }

  lemma ShowPath(connect: bool, t: string, x: Target, c: char) returns (y: Target)
    requires Shows(connect, ReqPath, t, x) && (IsUrlChar(c) || c == '?' || c == '#')
    ensures IsUrlChar(c) ==> Shows(connect, ReqPath, t + [c], y)
    ensures !IsUrlChar(c) ==> Shows(connect, if c == '?' then ReqQueryStringStart else ReqFragmentStart, t + [c], y)
  {
    hide Front, PlaceOk, PortOk, IsSchema, IsUrlChar;
    var r := if IsUrlChar(c) then x.rest.(path := x.rest.path + [c])
             else if c == '?' then x.rest.(query := Some("")) else x.rest.(fragment := Some(""));
    y := WithRest(x, r);
    assert r.path[0] == x.rest.path[0];
    RestGrows(x, r, c);
  }

  lemma ShowQuery(connect: bool, u: UrlStep, t: string, x: Target, c: char) returns (y: Target)
    requires (u.ReqQueryStringStart? || u.ReqQueryString?) && Shows(connect, u, t, x) && (IsUrlChar(c) || c == '?' || c == '#')
    ensures c != '#' ==> Shows(connect, ReqQueryString, t + [c], y) && Shows(connect, ReqQueryStringStart, t + [c], y)
    ensures c == '#' ==> Shows(connect, ReqFragmentStart, t + [c], y)
  {
    hide Front, PlaceOk, PortOk, IsSchema, IsUrlChar;
    var r := if c == '#' then x.rest.(fragment := Some("")) else x.rest.(query := Some(x.rest.query.value + [c]));
    y := WithRest(x, r);
    RestGrows(x, r, c);
  }

  lemma ShowFragment(connect: bool, u: UrlStep, t: string, x: Target, c: char) returns (y: Target)
    requires (u.ReqFragmentStart? || u.ReqFragment?) && Shows(connect, u, t, x) && (IsUrlChar(c) || c == '?' || c == '#')
    ensures Shows(connect, ReqFragment, t + [c], y) && Shows(connect, ReqFragmentStart, t + [c], y)
  {
    hide Front, PlaceOk, PortOk, IsSchema, IsUrlChar;
    var r := x.rest.(fragment := Some(x.rest.fragment.value + [c]));
    y := WithRest(x, r);
    RestGrows(x, r, c);
  }

  predicate Beyond(v: UrlStep, c: char) {
    (c == '/' && v.ReqPath?) || (c == '?' && v.ReqQueryStringStart?)
  }

  lemma TailMoves(connect: bool, u: UrlStep, c: char)
    requires Move(connect, In(u), c).In?
    ensures var v := Move(connect, In(u), c).step;
            && (u.ReqHost? && IsHostChar(c) ==> v.ReqHost?)
            && ((u.ReqHost? && !IsHostChar(c)) || u.ReqHostDone? ==> Beyond(v, c) || (c == ':' && v.ReqPort?))
            && (u.ReqPort? ==> Beyond(v, c) || (IsNum(c) && v.ReqPort?))
            && (u.ReqHostIpv6? ==> (c == ']' && v.ReqHostDone?) || (c != ']' && (IsHex(c) || c == ':') && v.ReqHostIpv6?))
            && (u.ReqPath? ==> v == if IsUrlChar(c) then ReqPath else if c == '?' then ReqQueryStringStart else ReqFragmentStart)
            && (u.ReqPath? || u.ReqQueryStringStart? || u.ReqQueryString? || u.ReqFragmentStart? || u.ReqFragment? ==> IsUrlChar(c) || c == '?' || c == '#')
            && (u.ReqQueryStringStart? || u.ReqQueryString? ==> if c == '#' then v.ReqFragmentStart? else v.ReqQueryStringStart? || v.ReqQueryString?)
            && (u.ReqFragmentStart? || u.ReqFragment? ==> v.ReqFragmentStart? || v.ReqFragment?)
  {
  }

  lemma ShowMove(connect: bool, u: UrlStep, t: string, x: Target, c: char) returns (y: Target)
    requires Shows(connect, u, t, x) && Move(connect, In(u), c).In?
    ensures Shows(connect, Move(connect, In(u), c).step, t + [c], y)
  {
    hide Shows, Move, IsHostChar, IsHex, IsNum, IsUrlChar;
    TailMoves(connect, u, c);
    if u.ReqSchema? || u.ReqSchemaSlash? || u.ReqSchemaSlashSlash? || u.ReqHostStart? {
      NotConnect(connect, u, t, x);
    }
    match u
    case ReqSchema => y := ShowSchema(u, t, x, c);
    case ReqSchemaSlash => y := ShowSchema(u, t, x, c);
    case ReqSchemaSlashSlash => y := ShowSchema(u, t, x, c);
    case ReqHostStart => y := ShowHost(t, x, c);
    case ReqHost =>
      if IsHostChar(c) { y := ShowName(connect, t, x, c); }
      else if c == ':' { y := ShowPort(connect, u, t, x, c); }
      else { y := ShowServerEnd(connect, u, t, x, c); }
    case ReqHostIpv6 => y := ShowAddress(connect, t, x, c);
    case ReqHostDone => if c == ':' { y := ShowPort(connect, u, t, x, c); } else { y := ShowServerEnd(connect, u, t, x, c); }
    case ReqPort => if Move(connect, In(u), c).step.ReqPort? { y := ShowPort(connect, u, t, x, c); } else { y := ShowServerEnd(connect, u, t, x, c); }
    case ReqPath => y := ShowPath(connect, t, x, c);
    case ReqQueryStringStart => y := ShowQuery(connect, u, t, x, c);
    case ReqQueryString => y := ShowQuery(connect, u, t, x, c);
    case ReqFragmentStart => y := ShowFragment(connect, u, t, x, c);
    case ReqFragment => y := ShowFragment(connect, u, t, x, c);
  }

  lemma NotConnect(connect: bool, u: UrlStep, t: string, x: Target)
    requires Shows(connect, u, t, x) && (u.ReqSchema? || u.ReqSchemaSlash? || u.ReqSchemaSlashSlash? || u.ReqHostStart?)
    ensures !connect
  {
  }

  lemma {:induction false} ShowAll(connect: bool, t: string) returns (x: Target)
    requires t != "" && Spell(connect, Ahead, t).In?
    ensures Shows(connect, Spell(connect, Ahead, t).step, t, x)
    decreases |t|
  {
    hide Shows, Move;
    var n := |t| - 1;
    if n == 0 {
      assert t == [t[0]];
      SpellNothing(connect, Ahead);
      x := ShowFirst(connect, t[0]);
    } else {
      MovesFrom(connect, Spell(connect, Ahead, t[..n]), t[n]);
      NeverAhead(connect, t[..n]);
      x := ShowAll(connect, t[..n]);
      x := ShowMove(connect, Spell(connect, Ahead, t[..n]).step, t[..n], x, t[n]);
      assert t[..n] + [t[n]] == t;
    }
  }

  lemma MovesFrom(connect: bool, s: Spot, c: char)
    ensures Move(connect, s, c).In? ==> !s.Off?
  {
  }

  lemma NeverAhead(connect: bool, t: string)
    requires t != ""
    ensures !Spell(connect, Ahead, t).Ahead?
  {
  }

  lemma ShownIsTarget(connect: bool, u: UrlStep, t: string, x: Target)
    requires Shows(connect, u, t, x) && MayEnd(u)
    ensures TargetOk(x, connect) && TargetText(x) == t
  {
    hide TargetOk, TargetText;
  }

  ghost predicate IsTarget(t: string, connect: bool) {
    exists x :: TargetOk(x, connect) && TargetText(x) == t
  }

  /** The states of the parser say exactly what a target is. */
  lemma SpellExact(connect: bool, t: string)
    requires t != ""
    ensures var s := Spell(connect, Ahead, t); (s.In? && MayEnd(s.step)) <==> IsTarget(t, connect)
  {
    hide Shows, Spell, TargetOk, TargetText, MayEnd;
    var s := Spell(connect, Ahead, t);
    if s.In? && MayEnd(s.step) {
      var x := ShowAll(connect, t);
      ShownIsTarget(connect, s.step, t, x);
    }
    if x :| TargetOk(x, connect) && TargetText(x) == t {
      SpellTarget(x, connect);
    }
  }
}
