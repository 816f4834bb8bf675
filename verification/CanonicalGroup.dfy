/** Canonical group declarations: defaults, validation, the normal form and the strict parser. */
module CanonicalGroup {
  import opened Basics
  import opened Canonical

  const MAX_ROUTES: nat := 16
  const MAX_HOSTNAMES: nat := 16
  const MAX_MATCHES: nat := 64
  const MAX_HEADERS: nat := 16
  const MAX_QUERIES: nat := 16
  const MAX_NAME: nat := 256

  // Enumerated strings: what is unset, what is known, anything else.
  datatype ValueKind = UnsetValue | ExactValue | OtherValue(text: Bytes)
  datatype PathKind = UnsetPath | ExactPath | PathPrefix | OtherPath(text: Bytes)
  datatype Policy = UnsetPolicy | ApplyLatest | PauseNew | OtherPolicy(text: Bytes)
  datatype ProbeKind = UnsetProbe | TcpProbe | HttpProbe | OtherProbe(text: Bytes)

  datatype Item = Item(kind: ValueKind, name: Bytes, value: Bytes)
  datatype Path = Path(kind: PathKind, value: Bytes)
  datatype Match = Match(path: Option<Path>, verb: Bytes, headers: seq<Item>, queries: seq<Item>)
  datatype Route = Route(hostnames: seq<Bytes>, matches: seq<Match>)
  datatype Probe = Probe(kind: ProbeKind, host: Bytes, path: Bytes)
  datatype Origin = Origin(enabled: bool, verify: bool, certificates: seq<Bytes>)
  datatype Group = Group(
    id: Bytes, version: nat, metric: int, policy: Policy,
    routes: seq<Route>, tls: Option<seq<Bytes>>, probe: Probe, origin: Origin)

  const SLASH: Bytes := [47]
  const NO_MATCH := Match(None, [], [], [])

  // ---------------------------------------------------------------------------
  // Defaults
  // ---------------------------------------------------------------------------

  function DefaultItem(i: Item): Item {
    if i.kind == UnsetValue then i.(kind := ExactValue) else i
  }

  function DefaultItems(items: seq<Item>): seq<Item> {
    seq(|items|, i requires 0 <= i < |items| => DefaultItem(items[i]))
  }

  function DefaultPath(p: Option<Path>): Path {
    var path := if p.None? then Path(UnsetPath, []) else p.value;
    Path(if path.kind == UnsetPath then PathPrefix else path.kind, if path.value == [] then SLASH else path.value)
  }

  function DefaultMatch(m: Match): Match {
    Match(Some(DefaultPath(m.path)), m.verb, DefaultItems(m.headers), DefaultItems(m.queries))
  }

  function DefaultMatches(matches: seq<Match>): seq<Match> {
    var all := if matches == [] then [NO_MATCH] else matches;
    seq(|all|, i requires 0 <= i < |all| => DefaultMatch(all[i]))
  }

  function DefaultRoutes(routes: seq<Route>): seq<Route> {
    seq(|routes|, i requires 0 <= i < |routes| => routes[i].(matches := DefaultMatches(routes[i].matches)))
  }

  function Defaults(g: Group): Group {
    g.(policy := if g.policy == UnsetPolicy then ApplyLatest else g.policy,
       probe := if g.probe.kind == UnsetProbe then g.probe.(kind := TcpProbe) else g.probe,
       routes := DefaultRoutes(g.routes))
  }

  predicate ItemsSet(items: seq<Item>) {
    forall i :: 0 <= i < |items| ==> items[i].kind != UnsetValue
  }

  predicate MatchSet(m: Match) {
    m.path.Some? && m.path.value.kind != UnsetPath && m.path.value.value != [] && ItemsSet(m.headers) &&
        ItemsSet(m.queries)
  }

  predicate RouteSet(r: Route) {
    r.matches != [] && forall i :: 0 <= i < |r.matches| ==> MatchSet(r.matches[i])
  }

  /** Nothing is left for the defaults to fill. */
  predicate AllSet(g: Group) {
    g.policy != UnsetPolicy && g.probe.kind != UnsetProbe && forall i :: 0 <= i < |g.routes| ==> RouteSet(g.routes[i])
  }

  lemma DefaultMatchesSet(r: Route)
    ensures RouteSet(r.(matches := DefaultMatches(r.matches)))
  {
    var d := DefaultMatches(r.matches);
    forall i | 0 <= i < |d|
      ensures MatchSet(d[i])
    {
      assert d[i] == DefaultMatch(if r.matches == [] then NO_MATCH else r.matches[i]);
    }
  }

  lemma DefaultsSet(g: Group)
    ensures AllSet(Defaults(g))
  {
    hide RouteSet;
    hide DefaultMatches;
    forall i | 0 <= i < |g.routes|
      ensures RouteSet(Defaults(g).routes[i])
    {
      DefaultMatchesSet(g.routes[i]);
    }
  }

  lemma SetMatchFixed(m: Match)
    requires MatchSet(m)
    ensures DefaultMatch(m) == m
  {
    assert DefaultItems(m.headers) == m.headers && DefaultItems(m.queries) == m.queries;
  }

  lemma SetRouteFixed(r: Route)
    requires RouteSet(r)
    ensures r.(matches := DefaultMatches(r.matches)) == r
  {
    hide MatchSet;
    forall i | 0 <= i < |r.matches|
      ensures DefaultMatch(r.matches[i]) == r.matches[i]
    {
      SetMatchFixed(r.matches[i]);
    }
    hide DefaultMatch;
    assert DefaultMatches(r.matches) == r.matches;
  }

  /** Defaults leave alone what is set. */
  lemma SetIsFixed(g: Group)
    requires AllSet(g)
    ensures Defaults(g) == g
  {
    hide RouteSet;
    forall i | 0 <= i < |g.routes|
      ensures g.routes[i].(matches := DefaultMatches(g.routes[i].matches)) == g.routes[i]
    {
      SetRouteFixed(g.routes[i]);
    }
    hide DefaultMatches;
    assert DefaultRoutes(g.routes) == g.routes;
  }

  // ---------------------------------------------------------------------------
  // The normal form
  // ---------------------------------------------------------------------------

  function LowerByte(b: Byte): Byte {
    if 65 <= b <= 90 then b + 32 else b
  }

  function Lower(b: Bytes): Bytes {
    seq(|b|, i requires 0 <= i < |b| => LowerByte(b[i]))
  }

  lemma LowerTwice(b: Bytes)
    ensures Lower(Lower(b)) == Lower(b)
  {
  }

  function LowerAll(names: seq<Bytes>): seq<Bytes> {
    seq(|names|, i requires 0 <= i < |names| => Lower(names[i]))
  }

  function LowerNames(items: seq<Item>): seq<Item> {
    seq(|items|, i requires 0 <= i < |items| => items[i].(name := Lower(items[i].name)))
  }

  function Self(b: Bytes): Bytes { b }

  function NameOf(i: Item): Bytes { i.name }

  /** JSON: encoders that tell values apart, and a decoder. Encoding a declaration may fail. */
  datatype Codec = Codec(
    matchKey: Match -> Bytes, routeKey: Route -> Bytes,
    encode: Group -> Option<Bytes>, decode: Bytes -> Option<Group>)

  /** Every match names its path, as in the marshalled projection. */
  predicate Projected(g: Group) {
    forall i, j :: 0 <= i < |g.routes| && 0 <= j < |g.routes[i].matches| ==> g.routes[i].matches[j].path.Some?
  }

  ghost predicate Sound(codec: Codec) {
    && Faithful(codec.matchKey) && Faithful(codec.routeKey)
    && forall g :: Projected(g) && codec.encode(g).Some? ==> codec.decode(codec.encode(g).value) == Some(g)
  }

  function PathOf(m: Match): Path {
    if m.path.None? then Path(PathPrefix, SLASH) else m.path.value
  }

  function CanonMatch(m: Match): Match {
    Match(Some(PathOf(m)), m.verb,
          SortUnique(LowerNames(m.headers), NameOf), SortUnique(m.queries, NameOf))
  }

  function CanonMatches(matches: seq<Match>): seq<Match> {
    seq(|matches|, i requires 0 <= i < |matches| => CanonMatch(matches[i]))
  }

  function CanonHostnames(names: seq<Bytes>): seq<Bytes> {
    SortUnique(LowerAll(names), Self)
  }

  function CanonRoute(codec: Codec, r: Route): Route {
    Route(CanonHostnames(r.hostnames), SortUnique(CanonMatches(r.matches), codec.matchKey))
  }

  function CanonRoutes(codec: Codec, routes: seq<Route>): seq<Route> {
    seq(|routes|, i requires 0 <= i < |routes| => CanonRoute(codec, routes[i]))
  }

  /** normalize, the sorting of the certificates and the projection that is marshalled. */
  function Canon(codec: Codec, g: Group): Group {
    g.(routes := SortUnique(CanonRoutes(codec, g.routes), codec.routeKey),
       tls := if g.tls.None? then None else Some(CanonHostnames(g.tls.value)),
       origin := g.origin.(certificates := SortUnique(g.origin.certificates, Self)))
  }

  // ---------------------------------------------------------------------------
  // Idempotence
  // ---------------------------------------------------------------------------

  lemma HostnamesTwice(names: seq<Bytes>)
    ensures CanonHostnames(CanonHostnames(names)) == CanonHostnames(names)
  {
    var c := CanonHostnames(names);
    SortUniqueOk(LowerAll(names), Self);
    forall i | 0 <= i < |c|
      ensures Lower(c[i]) == c[i]
    {
      var j :| 0 <= j < |LowerAll(names)| && LowerAll(names)[j] == c[i];
      LowerTwice(names[j]);
    }
    assert LowerAll(c) == c;
    SortedIsFixed(c, Self);
  }

  lemma HeadersTwice(items: seq<Item>)
    ensures var c := SortUnique(LowerNames(items), NameOf); SortUnique(LowerNames(c), NameOf) == c
  {
    var lowered := LowerNames(items);
    var c := SortUnique(lowered, NameOf);
    SortUniqueOk(lowered, NameOf);
    forall i | 0 <= i < |c|
      ensures c[i].(name := Lower(c[i].name)) == c[i]
    {
      var j :| 0 <= j < |lowered| && lowered[j] == c[i];
      LowerTwice(items[j].name);
    }
    assert LowerNames(c) == c;
    SortedIsFixed(c, NameOf);
  }

  lemma MatchTwice(m: Match)
    ensures CanonMatch(CanonMatch(m)) == CanonMatch(m)
  {
    HeadersTwice(m.headers);
    SortUniqueOk(m.queries, NameOf);
    SortedIsFixed(SortUnique(m.queries, NameOf), NameOf);
    hide SortUnique;
  }

  lemma RouteTwice(codec: Codec, r: Route)
    ensures CanonRoute(codec, CanonRoute(codec, r)) == CanonRoute(codec, r)
  {
    var all := CanonMatches(r.matches);
    var c := SortUnique(all, codec.matchKey);
    HostnamesTwice(r.hostnames);
    SortUniqueOk(all, codec.matchKey);
    hide SortUnique;
    hide CanonHostnames;
    forall i | 0 <= i < |c|
      ensures CanonMatch(c[i]) == c[i]
    {
      var j :| 0 <= j < |all| && all[j] == c[i];
      MatchTwice(r.matches[j]);
    }
    hide CanonMatch;
    assert CanonMatches(c) == c;
    SortedIsFixed(c, codec.matchKey);
  }

  /** The normal form of a normal form is itself. */
  lemma CanonTwice(codec: Codec, g: Group)
    ensures Canon(codec, Canon(codec, g)) == Canon(codec, g)
  {
    var all := CanonRoutes(codec, g.routes);
    var c := SortUnique(all, codec.routeKey);
    SortUniqueOk(all, codec.routeKey);
    SortUniqueOk(g.origin.certificates, Self);
    SortedIsFixed(SortUnique(g.origin.certificates, Self), Self);
    if g.tls.Some? {
      HostnamesTwice(g.tls.value);
    }
    hide SortUnique;
    hide CanonHostnames;
    forall i | 0 <= i < |c|
      ensures CanonRoute(codec, c[i]) == c[i]
    {
      var j :| 0 <= j < |all| && all[j] == c[i];
      RouteTwice(codec, g.routes[j]);
    }
    hide CanonRoute;
    assert CanonRoutes(codec, c) == c;
    SortedIsFixed(c, codec.routeKey);
  }

  // ---------------------------------------------------------------------------
  // What the normal form depends on
  // ---------------------------------------------------------------------------

  /** The same members, in whatever order and however often. */
  ghost predicate SameSet<T(!new)>(a: seq<T>, b: seq<T>) {
    forall y :: y in a <==> y in b
  }

  lemma SameSetIff<T(!new)>(a: seq<T>, b: seq<T>, key: T -> Bytes)
    requires Faithful(key)
    ensures SortUnique(a, key) == SortUnique(b, key) <==> SameSet(a, b)
  {
    SameFormIff(a, b, key);
    forall y: T
      ensures (Wins(a, key, y) <==> Wins(b, key, y)) <==> (y in a <==> y in b)
    {
      FaithfulWins(a, key, y);
      FaithfulWins(b, key, y);
    }
    hide SortUnique;
    hide Wins;
    if SameWinners(a, b, key) {
      forall y: T
        ensures y in a <==> y in b
      {
        assert Wins(a, key, y) <==> Wins(b, key, y);
      }
    }
    if SameSet(a, b) {
      forall y: T
        ensures Wins(a, key, y) <==> Wins(b, key, y)
      {
        assert y in a <==> y in b;
      }
    }
  }

  /** Same path and method, and in headers and queries the same first entry for every name. */
  ghost predicate SameMatch(a: Match, b: Match) {
    && PathOf(a) == PathOf(b) && a.verb == b.verb
    && SameWinners(LowerNames(a.headers), LowerNames(b.headers), NameOf) && SameWinners(a.queries, b.queries, NameOf)
  }

  lemma MatchIff(a: Match, b: Match)
    ensures CanonMatch(a) == CanonMatch(b) <==> SameMatch(a, b)
  {
    SameFormIff(LowerNames(a.headers), LowerNames(b.headers), NameOf);
    SameFormIff(a.queries, b.queries, NameOf);
    hide SortUnique;
    hide SameWinners;
    hide LowerNames;
  }

  ghost predicate MatchesIn(a: seq<Match>, b: seq<Match>) {
    forall i :: 0 <= i < |a| ==> MatchIn(a[i], b)
  }

  ghost predicate MatchIn(m: Match, b: seq<Match>) {
    exists j :: 0 <= j < |b| && SameMatch(m, b[j])
  }

  lemma MatchesInIff(a: seq<Match>, b: seq<Match>)
    ensures MatchesIn(a, b) <==> forall y :: y in CanonMatches(a) ==> y in CanonMatches(b)
  {
    hide SameMatch;
    hide CanonMatch;
    var x, z := CanonMatches(a), CanonMatches(b);
    if MatchesIn(a, b) {
      forall i | 0 <= i < |x|
        ensures x[i] in z
      {
        assert MatchIn(a[i], b);
        var j :| 0 <= j < |b| && SameMatch(a[i], b[j]);
        MatchIff(a[i], b[j]);
        assert z[j] == x[i];
      }
    }
    if forall y :: y in x ==> y in z {
      forall i | 0 <= i < |a|
        ensures MatchIn(a[i], b)
      {
        assert x[i] in z;
        var j :| 0 <= j < |z| && z[j] == x[i];
        MatchIff(a[i], b[j]);
      }
    }
  }

  /** The same set of hostnames and, up to SameMatch, the same set of matches. */
  ghost predicate SameRoute(a: Route, b: Route) {
    SameSet(LowerAll(a.hostnames), LowerAll(b.hostnames)) && MatchesIn(a.matches, b.matches) &&
        MatchesIn(b.matches, a.matches)
  }

  lemma SelfFaithful()
    ensures Faithful(Self)
  {
  }

  lemma RouteIff(codec: Codec, a: Route, b: Route)
    requires Sound(codec)
    ensures CanonRoute(codec, a) == CanonRoute(codec, b) <==> SameRoute(a, b)
  {
    SelfFaithful();
    SameSetIff(LowerAll(a.hostnames), LowerAll(b.hostnames), Self);
    SameSetIff(CanonMatches(a.matches), CanonMatches(b.matches), codec.matchKey);
    MatchesInIff(a.matches, b.matches);
    MatchesInIff(b.matches, a.matches);
    BothWays(CanonMatches(a.matches), CanonMatches(b.matches));
    hide SortUnique;
    hide CanonMatches;
    hide LowerAll;
    hide MatchesIn;
    hide SameSet;
  }

  lemma BothWays<T(!new)>(x: seq<T>, z: seq<T>)
    ensures SameSet(x, z) <==> (forall y :: y in x ==> y in z) && (forall y :: y in z ==> y in x)
  {
  }

  ghost predicate RouteIn(r: Route, b: seq<Route>) {
    exists j :: 0 <= j < |b| && SameRoute(r, b[j])
  }

  ghost predicate RoutesIn(a: seq<Route>, b: seq<Route>) {
    forall i :: 0 <= i < |a| ==> RouteIn(a[i], b)
  }

  lemma RoutesInIff(codec: Codec, a: seq<Route>, b: seq<Route>)
    requires Sound(codec)
    ensures RoutesIn(a, b) <==> forall y :: y in CanonRoutes(codec, a) ==> y in CanonRoutes(codec, b)
  {
    hide SameRoute;
    hide CanonRoute;
    hide Sound;
    var x, z := CanonRoutes(codec, a), CanonRoutes(codec, b);
    if RoutesIn(a, b) {
      forall i | 0 <= i < |x|
        ensures x[i] in z
      {
        assert RouteIn(a[i], b);
        var j :| 0 <= j < |b| && SameRoute(a[i], b[j]);
        RouteIff(codec, a[i], b[j]);
        assert z[j] == x[i];
      }
    }
    if forall y :: y in x ==> y in z {
      forall i | 0 <= i < |a|
        ensures RouteIn(a[i], b)
      {
        assert x[i] in z;
        var j :| 0 <= j < |z| && z[j] == x[i];
        RouteIff(codec, a[i], b[j]);
      }
    }
  }

  ghost predicate SameTls(a: Option<seq<Bytes>>, b: Option<seq<Bytes>>) {
    if a.None? || b.None? then a.None? && b.None? else SameSet(LowerAll(a.value), LowerAll(b.value))
  }

  /** Two groups say the same: equal scalars, and the same sets of routes, hostnames and certificates. */
  ghost predicate SameGroup(g: Group, h: Group) {
    && g.(routes := [], tls := None, origin := g.origin.(certificates := []))
       == h.(routes := [], tls := None, origin := h.origin.(certificates := []))
    && RoutesIn(g.routes, h.routes) && RoutesIn(h.routes, g.routes)
    && SameTls(g.tls, h.tls) && SameSet(g.origin.certificates, h.origin.certificates)
  }

  lemma TlsIff(a: Option<seq<Bytes>>, b: Option<seq<Bytes>>)
    ensures (if a.None? then None else Some(CanonHostnames(a.value))) ==
            (if b.None? then None else Some(CanonHostnames(b.value)))
            <==> SameTls(a, b)
  {
    SelfFaithful();
    if a.Some? && b.Some? {
      SameSetIff(LowerAll(a.value), LowerAll(b.value), Self);
    }
    hide SortUnique;
    hide SameSet;
    hide LowerAll;
  }

  lemma RouteProjected(codec: Codec, r: Route, j: nat)
    requires j < |CanonRoute(codec, r).matches|
    ensures CanonRoute(codec, r).matches[j].path.Some?
  {
    var all := CanonMatches(r.matches);
    SortUniqueOk(all, codec.matchKey);
    var c := SortUnique(all, codec.matchKey);
    var k :| 0 <= k < |all| && all[k] == c[j];
  }

  lemma CanonProjected(codec: Codec, g: Group)
    ensures Projected(Canon(codec, g))
  {
    var all := CanonRoutes(codec, g.routes);
    var c := SortUnique(all, codec.routeKey);
    SortUniqueOk(all, codec.routeKey);
    hide SortUnique;
    hide CanonRoute;
    forall i, j | 0 <= i < |c| && 0 <= j < |c[i].matches|
      ensures c[i].matches[j].path.Some?
    {
      var k :| 0 <= k < |all| && all[k] == c[i];
      RouteProjected(codec, g.routes[k], j);
    }
  }

  lemma CanonIff(codec: Codec, g: Group, h: Group)
    requires Sound(codec)
    ensures Canon(codec, g) == Canon(codec, h) <==> SameGroup(g, h)
  {
    SelfFaithful();
    SameSetIff(CanonRoutes(codec, g.routes), CanonRoutes(codec, h.routes), codec.routeKey);
    SameSetIff(g.origin.certificates, h.origin.certificates, Self);
    RoutesInIff(codec, g.routes, h.routes);
    RoutesInIff(codec, h.routes, g.routes);
    BothWays(CanonRoutes(codec, g.routes), CanonRoutes(codec, h.routes));
    TlsIff(g.tls, h.tls);
    hide SortUnique;
    hide CanonRoutes;
    hide CanonHostnames;
    hide SameSet;
    hide SameTls;
    hide RoutesIn;
  }

  /** The declaration depends on exactly that: two groups have the same canonical bytes if and
      only if they say the same. */
  lemma DeclarationIff(codec: Codec, g: Group, h: Group)
    requires Sound(codec) && codec.encode(Canon(codec, g)).Some? && codec.encode(Canon(codec, h)).Some?
    ensures codec.encode(Canon(codec, g)) == codec.encode(Canon(codec, h)) <==> SameGroup(g, h)
  {
    CanonIff(codec, g, h);
    CanonProjected(codec, g);
    CanonProjected(codec, h);
    hide Canon;
    hide Projected;
    hide SameGroup;
  }
}
