/** Normalizing and marshalling as the program does it: loops over routes and matches. */
module CanonicalMarshal {
  import opened Basics
  import opened Canonical
  import opened CanonicalGroup

  /** sortedUniqueStrings with case folding. */
  method NormalizeHostnames(values: seq<Bytes>) returns (result: seq<Bytes>)
    ensures result == CanonHostnames(values)
  {
    var lowered: seq<Bytes> := [];
    for i := 0 to |values|
      invariant lowered == LowerAll(values)[..i]
    {
      lowered := lowered + [Lower(values[i])];
    }
    assert lowered == LowerAll(values);
    SelfFaithful();
    result := SortedUnique(lowered, Self);
  }

  /** normalizeMeshHeaders: of equal names, up to case, the first is kept. */
  method NormalizeHeaders(headers: seq<Item>) returns (result: seq<Item>)
    ensures result == SortUnique(LowerNames(headers), NameOf)
  {
    var lowered: seq<Item> := [];
    for i := 0 to |headers|
      invariant lowered == LowerNames(headers)[..i]
    {
      lowered := lowered + [headers[i].(name := Lower(headers[i].name))];
    }
    assert lowered == LowerNames(headers);
    result := FirstWins(lowered, NameOf);
  }

  /** The matches of one route, projected, sorted by their encoding and compacted. */
  method MarshalMatches(codec: Codec, matches: seq<Match>) returns (result: seq<Match>)
    requires Faithful(codec.matchKey)
    ensures result == SortUnique(CanonMatches(matches), codec.matchKey)
  {
    hide SortUnique;
    hide LowerNames;
    var projected: seq<Match> := [];
    for i := 0 to |matches|
      invariant projected == CanonMatches(matches)[..i]
    {
      var headers := NormalizeHeaders(matches[i].headers);
      var queries := FirstWins(matches[i].queries, NameOf);
      projected := projected + [Match(Some(PathOf(matches[i])), matches[i].verb, headers, queries)];
    }
    assert projected == CanonMatches(matches);
    result := SortedUnique(projected, codec.matchKey);
  }

  /** normalize, the sorting of the certificates and marshalMeshGroupCanonical up to its encoding. */
  method Marshal(codec: Codec, g: Group) returns (result: Group)
    requires Faithful(codec.matchKey) && Faithful(codec.routeKey)
    ensures result == Canon(codec, g)
  {
    hide SortUnique;
    hide CanonHostnames;
    hide CanonMatches;
    var projected: seq<Route> := [];
    for i := 0 to |g.routes|
      invariant projected == CanonRoutes(codec, g.routes)[..i]
    {
      var hostnames := NormalizeHostnames(g.routes[i].hostnames);
      var matches := MarshalMatches(codec, g.routes[i].matches);
      projected := projected + [Route(hostnames, matches)];
    }
    assert projected == CanonRoutes(codec, g.routes);
    var routes := SortedUnique(projected, codec.routeKey);
    var tls := None;
    if g.tls.Some? {
      var hostnames := NormalizeHostnames(g.tls.value);
      tls := Some(hostnames);
    }
    SelfFaithful();
    var certificates := SortedUnique(g.origin.certificates, Self);
    result := g.(routes := routes, tls := tls, origin := g.origin.(certificates := certificates));
  }
}
