/** Validation, finalization of a client's group and the strict parser of a server. */
module CanonicalParse {
  import opened Basics
  import opened Canonical
  import opened CanonicalGroup

  /** The field checks by pattern: parameters, except where normalizing changes the field. */
  datatype Checks = Checks(
    identity: Bytes -> bool, hostname: Bytes -> bool, path: Bytes -> bool, verb: Bytes -> bool,
    headerValue: Bytes -> bool, queryValue: Bytes -> bool, probeHost: Bytes -> bool, certificate: Bytes -> bool)

  // ---------------------------------------------------------------------------
  // Validation
  // ---------------------------------------------------------------------------

  predicate TokenByte(b: Byte) {
    || 65 <= b <= 90 || 97 <= b <= 122 || 48 <= b <= 57 || b == 33 || 35 <= b <= 39 || b == 42 || b == 43
    || b == 45 || b == 46 || 94 <= b <= 96 || b == 124 || b == 126
  }

  /** An HTTP token of 1 to 256 bytes. */
  predicate NameOk(name: Bytes) {
    1 <= |name| <= MAX_NAME && forall i :: 0 <= i < |name| ==> TokenByte(name[i])
  }

  /** Hostnames are lower case already; the rest of their pattern is a parameter. */
  predicate HostnameOk(checks: Checks, name: Bytes) {
    checks.hostname(name) && forall i :: 0 <= i < |name| ==> !(65 <= name[i] <= 90)
  }

  predicate HostnamesOk(checks: Checks, names: seq<Bytes>) {
    |names| <= MAX_HOSTNAMES && forall i :: 0 <= i < |names| ==> HostnameOk(checks, names[i])
  }

  predicate ItemOk(i: Item, value: Bytes -> bool) {
    !i.kind.OtherValue? && NameOk(i.name) && value(i.value)
  }

  predicate ItemsOk(items: seq<Item>, limit: nat, value: Bytes -> bool) {
    |items| <= limit && forall i :: 0 <= i < |items| ==> ItemOk(items[i], value)
  }

  predicate PathOk(checks: Checks, p: Path) {
    !p.kind.OtherPath? && (p.value == [] || p.value == SLASH || checks.path(p.value))
  }

  predicate MatchOk(checks: Checks, m: Match) {
    && (m.path.Some? ==> PathOk(checks, m.path.value)) && (m.verb != [] ==> checks.verb(m.verb))
    && ItemsOk(m.headers, MAX_HEADERS, checks.headerValue) && ItemsOk(m.queries, MAX_QUERIES, checks.queryValue)
  }

  predicate MatchesOk(checks: Checks, matches: seq<Match>) {
    |matches| <= MAX_MATCHES && forall i :: 0 <= i < |matches| ==> MatchOk(checks, matches[i])
  }

  predicate RouteOk(checks: Checks, r: Route) {
    HostnamesOk(checks, r.hostnames) && MatchesOk(checks, r.matches)
  }

  predicate RoutesOk(checks: Checks, routes: seq<Route>) {
    |routes| <= MAX_ROUTES && forall i :: 0 <= i < |routes| ==> RouteOk(checks, routes[i])
  }

  predicate TlsOk(checks: Checks, tls: Option<seq<Bytes>>) {
    tls.Some? ==> tls.value != [] && HostnamesOk(checks, tls.value)
  }

  predicate ProbeOk(checks: Checks, p: Probe) {
    match p.kind
    case HttpProbe => checks.probeHost(p.host) && p.path != [] && (p.path == SLASH || checks.path(p.path))
    case OtherProbe(_) => false
    case _ => p.host == [] && p.path == []
  }

  predicate Valid(checks: Checks, g: Group) {
    && checks.identity(g.id) && g.version != 0 && g.policy in {ApplyLatest, PauseNew}
    && RoutesOk(checks, g.routes) && TlsOk(checks, g.tls) && ProbeOk(checks, g.probe) &&
       (g.origin.verify ==> g.origin.enabled)
  }

  // ---------------------------------------------------------------------------
  // Normalizing keeps a valid group valid
  // ---------------------------------------------------------------------------

  lemma LowerHostname(checks: Checks, name: Bytes)
    requires HostnameOk(checks, name)
    ensures Lower(name) == name
  {
  }

  lemma LowerName(name: Bytes)
    requires NameOk(name)
    ensures NameOk(Lower(name))
  {
  }

  lemma HostnamesKept(checks: Checks, names: seq<Bytes>)
    requires HostnamesOk(checks, names)
    ensures HostnamesOk(checks, CanonHostnames(names)) && (names != [] ==> CanonHostnames(names) != [])
  {
    var all, c := LowerAll(names), CanonHostnames(names);
    SortUniqueOk(all, Self);
    SortUniqueSize(all, Self);
    hide SortUnique;
    forall i | 0 <= i < |c|
      ensures HostnameOk(checks, c[i])
    {
      var j :| 0 <= j < |all| && all[j] == c[i];
      LowerHostname(checks, names[j]);
    }
  }

  lemma ItemsKept(items: seq<Item>, limit: nat, value: Bytes -> bool)
    requires ItemsOk(items, limit, value)
    ensures ItemsOk(SortUnique(items, NameOf), limit, value)
  {
    var c := SortUnique(items, NameOf);
    SortUniqueOk(items, NameOf);
    SortUniqueSize(items, NameOf);
    hide SortUnique;
    hide ItemOk;
    forall i | 0 <= i < |c|
      ensures ItemOk(c[i], value)
    {
      var j :| 0 <= j < |items| && items[j] == c[i];
    }
  }

  lemma HeadersKept(items: seq<Item>, limit: nat, value: Bytes -> bool)
    requires ItemsOk(items, limit, value)
    ensures ItemsOk(SortUnique(LowerNames(items), NameOf), limit, value)
  {
    hide NameOk;
    forall i | 0 <= i < |items|
      ensures ItemOk(LowerNames(items)[i], value)
    {
      LowerName(items[i].name);
    }
    ItemsKept(LowerNames(items), limit, value);
  }

  lemma MatchKept(checks: Checks, m: Match)
    requires MatchOk(checks, m)
    ensures MatchOk(checks, CanonMatch(m))
  {
    HeadersKept(m.headers, MAX_HEADERS, checks.headerValue);
    ItemsKept(m.queries, MAX_QUERIES, checks.queryValue);
    hide ItemsOk;
    hide SortUnique;
  }

  lemma RouteKept(checks: Checks, codec: Codec, r: Route)
    requires RouteOk(checks, r)
    ensures RouteOk(checks, CanonRoute(codec, r))
  {
    HostnamesKept(checks, r.hostnames);
    var all := CanonMatches(r.matches);
    var c := SortUnique(all, codec.matchKey);
    SortUniqueOk(all, codec.matchKey);
    SortUniqueSize(all, codec.matchKey);
    hide SortUnique;
    hide HostnamesOk;
    hide MatchOk;
    hide CanonMatch;
    forall i | 0 <= i < |c|
      ensures MatchOk(checks, c[i])
    {
      var j :| 0 <= j < |all| && all[j] == c[i];
      MatchKept(checks, r.matches[j]);
    }
  }

  lemma RoutesKept(checks: Checks, codec: Codec, routes: seq<Route>)
    requires RoutesOk(checks, routes)
    ensures RoutesOk(checks, SortUnique(CanonRoutes(codec, routes), codec.routeKey))
  {
    var all := CanonRoutes(codec, routes);
    var c := SortUnique(all, codec.routeKey);
    SortUniqueOk(all, codec.routeKey);
    SortUniqueSize(all, codec.routeKey);
    hide SortUnique;
    hide RouteOk;
    hide CanonRoute;
    forall i | 0 <= i < |c|
      ensures RouteOk(checks, c[i])
    {
      var j :| 0 <= j < |all| && all[j] == c[i];
      RouteKept(checks, codec, routes[j]);
    }
  }

  /** The normal form of a valid group is valid. */
  lemma CanonValid(checks: Checks, codec: Codec, g: Group)
    requires Valid(checks, g)
    ensures Valid(checks, Canon(codec, g))
  {
    hide RoutesOk;
    hide HostnamesOk;
    hide ProbeOk;
    RoutesKept(checks, codec, g.routes);
    if g.tls.Some? {
      HostnamesKept(checks, g.tls.value);
    }
    hide SortUnique;
    hide CanonHostnames;
    hide CanonRoutes;
  }

  // ---------------------------------------------------------------------------
  // Normalizing leaves nothing for the defaults
  // ---------------------------------------------------------------------------

  lemma ItemsStaySet(items: seq<Item>)
    requires ItemsSet(items)
    ensures ItemsSet(SortUnique(items, NameOf))
  {
    var c := SortUnique(items, NameOf);
    SortUniqueOk(items, NameOf);
    hide SortUnique;
    forall i | 0 <= i < |c|
      ensures c[i].kind != UnsetValue
    {
      var j :| 0 <= j < |items| && items[j] == c[i];
    }
  }

  lemma MatchStaysSet(m: Match)
    requires MatchSet(m)
    ensures MatchSet(CanonMatch(m))
  {
    ItemsStaySet(LowerNames(m.headers));
    ItemsStaySet(m.queries);
    hide SortUnique;
  }

  lemma RouteStaysSet(codec: Codec, r: Route)
    requires RouteSet(r)
    ensures RouteSet(CanonRoute(codec, r))
  {
    var all := CanonMatches(r.matches);
    var c := SortUnique(all, codec.matchKey);
    SortUniqueOk(all, codec.matchKey);
    SortUniqueSize(all, codec.matchKey);
    hide SortUnique;
    hide CanonHostnames;
    hide MatchSet;
    hide CanonMatch;
    forall i | 0 <= i < |c|
      ensures MatchSet(c[i])
    {
      var j :| 0 <= j < |all| && all[j] == c[i];
      MatchStaysSet(r.matches[j]);
    }
  }

  lemma CanonStaysSet(codec: Codec, g: Group)
    requires AllSet(g)
    ensures AllSet(Canon(codec, g))
  {
    var all := CanonRoutes(codec, g.routes);
    var c := SortUnique(all, codec.routeKey);
    SortUniqueOk(all, codec.routeKey);
    hide SortUnique;
    hide CanonHostnames;
    hide RouteSet;
    hide CanonRoute;
    forall i | 0 <= i < |c|
      ensures RouteSet(c[i])
    {
      var j :| 0 <= j < |all| && all[j] == c[i];
      RouteStaysSet(codec, g.routes[j]);
    }
  }

  // ---------------------------------------------------------------------------
  // Certificates
  // ---------------------------------------------------------------------------

  predicate CertificatesOk(checks: Checks, o: Origin) {
    && (o.certificates != [] ==> o.enabled && o.verify)
    && forall i :: 0 <= i < |o.certificates| ==> checks.certificate(o.certificates[i])
  }

  lemma CertificatesKept(checks: Checks, codec: Codec, g: Group)
    requires CertificatesOk(checks, g.origin)
    ensures CertificatesOk(checks, Canon(codec, g).origin)
  {
    var given := g.origin.certificates;
    var c := SortUnique(given, Self);
    SortUniqueOk(given, Self);
    SortUniqueSize(given, Self);
    hide SortUnique;
    forall i | 0 <= i < |c|
      ensures checks.certificate(c[i])
    {
      var j :| 0 <= j < |given| && given[j] == c[i];
    }
  }

  // ---------------------------------------------------------------------------
  // The client's finalization and the server's parser
  // ---------------------------------------------------------------------------

  type Loader = seq<Bytes> -> Option<seq<Bytes>>

  /** No files, no certificates; and what is loaded from a file has been parsed. */
  ghost predicate LoaderOk(checks: Checks, load: Loader) {
    && load([]) == Some([])
    && forall files, i :: load(files).Some? && 0 <= i < |load(files).value| ==> checks.certificate(load(files).value[i])
  }

  /** FinalizeMeshClientConfig, its group part: the public declaration, if all goes well. */
  function Finalize(codec: Codec, checks: Checks, load: Loader, g: Group, files: seq<Bytes>): Option<Bytes> {
    var d := Defaults(g);
    if !Valid(checks, d) || (files != [] && !(d.origin.enabled && d.origin.verify)) || load(files).None? then None
    else codec.encode(Canon(codec, d.(origin := d.origin.(certificates := load(files).value))))
  }

  datatype Declared = Declared(id: Bytes, version: nat, policy: Policy)

  /** ParseMeshGroupCanonicalPolicyMeasured. */
  function Parse(codec: Codec, checks: Checks, data: Bytes): Option<Declared> {
    var decoded := codec.decode(data);
    if decoded.None? then None else
    var d := Defaults(decoded.value);
    if !Valid(checks, d) || !CertificatesOk(checks, d.origin) || codec.encode(Canon(codec, d)) != Some(data) then None
    else Some(Declared(d.id, d.version, d.policy))
  }

  /** A group with everything set, valid and with usable certificates. */
  predicate Complete(checks: Checks, g: Group) {
    AllSet(g) && Valid(checks, g) && CertificatesOk(checks, g.origin)
  }

  /** The canonical bytes of a complete group are accepted, and read as that group. */
  lemma CanonicalAccepted(codec: Codec, checks: Checks, g: Group)
    requires Sound(codec) && Complete(checks, g) && codec.encode(Canon(codec, g)).Some?
    ensures Parse(codec, checks, codec.encode(Canon(codec, g)).value) == Some(Declared(g.id, g.version, g.policy))
  {
    hide Valid;
    hide CertificatesOk;
    hide Projected;
    hide AllSet;
    hide Defaults;
    var c := Canon(codec, g);
    assert c.id == g.id && c.version == g.version && c.policy == g.policy;
    CanonTwice(codec, g);
    CanonProjected(codec, g);
    CanonValid(checks, codec, g);
    CertificatesKept(checks, codec, g);
    CanonStaysSet(codec, g);
    SetIsFixed(c);
    hide Canon;
  }

  /** Every declaration a client finalizes is accepted by the strict parser, with the same group,
      version and (defaulted) policy. */
  lemma FinalizedAccepted(codec: Codec, checks: Checks, load: Loader, g: Group, files: seq<Bytes>)
    requires Sound(codec) && LoaderOk(checks, load) && Finalize(codec, checks, load, g, files).Some?
    ensures Parse(codec, checks, Finalize(codec, checks, load, g, files).value)
         == Some(Declared(g.id, g.version, Defaults(g).policy))
  {
    var d := Defaults(g);
    var full := d.(origin := d.origin.(certificates := load(files).value));
    DefaultsSet(g);
    assert d.id == g.id && d.version == g.version;
    hide Defaults;
    hide RouteSet;
    hide RoutesOk;
    hide ProbeOk;
    hide TlsOk;
    assert Valid(checks, full);
    assert AllSet(full);
    CanonicalAccepted(codec, checks, full);
    hide Canon;
    hide Parse;
  }

  /** The parser accepts exactly the canonical bytes of complete groups. */
  lemma AcceptedIff(codec: Codec, checks: Checks, data: Bytes)
    requires Sound(codec)
    ensures Parse(codec, checks, data).Some?
       <==> exists g :: Complete(checks, g) && codec.encode(Canon(codec, g)) == Some(data)
  {
    hide Canon;
    hide Valid;
    hide CertificatesOk;
    hide AllSet;
    if Parse(codec, checks, data).Some? {
      var d := Defaults(codec.decode(data).value);
      DefaultsSet(codec.decode(data).value);
      assert Complete(checks, d) && codec.encode(Canon(codec, d)) == Some(data);
    }
    if g :| Complete(checks, g) && codec.encode(Canon(codec, g)) == Some(data) {
      CanonicalAccepted(codec, checks, g);
    }
  }
}
