/**
 * How `fetch` reads a request (worker/orchestration-agent.ts): the path is split on `/`,
 * segment 1 is the endpoint and segment 2 the id; GET selects one part of the state,
 * POST selects a command, and everything else is "Not Found".
 */
module Routing {
  import opened GtmTypes
  import opened StringOps

  /** The parts of the state a GET can read. */
  datatype Resource = Status | Metrics | Parameters | Events | Escalations | Logs | Configs | Analytics

  /** What a request asks for. */
  datatype Route = Read(resource: Resource) | Resolve(id: string) | Update | Unmatched

  function EndpointName(r: Resource): string
  {
    match r
    case Status => "status"
    case Metrics => "metrics"
    case Parameters => "parameters"
    case Events => "events"
    case Escalations => "escalations"
    case Logs => "logs"
    case Configs => "configs"
    case Analytics => "analytics"
  }

  /** The GET `switch`: the resource an endpoint names, if any. */
  function ResourceOf(endpoint: string): (r: Option<Resource>)
    ensures r.Some? ==> EndpointName(r.value) == endpoint
  {
    if endpoint == "status" then Some(Status)
    else if endpoint == "metrics" then Some(Metrics)
    else if endpoint == "parameters" then Some(Parameters)
    else if endpoint == "events" then Some(Events)
    else if endpoint == "escalations" then Some(Escalations)
    else if endpoint == "logs" then Some(Logs)
    else if endpoint == "configs" then Some(Configs)
    else if endpoint == "analytics" then Some(Analytics)
    else None
  }

  /** Every resource is reached through its own endpoint name, and no name contains `/`. */
  lemma ResourceOfEndpointName(r: Resource)
    ensures ResourceOf(EndpointName(r)) == Some(r)
    ensures '/' !in EndpointName(r)
  {
  }

  /** `path[k]`, which is `undefined` past the end. */
  function Segment(path: seq<string>, k: nat): (r: Option<string>)
    ensures r.Some? <==> k < |path|
    ensures r.Some? ==> r.value == path[k]
  {
    if k < |path| then Some(path[k]) else None
  }

  /** A segment is truthy when it is present and not empty. */
  predicate Truthy(s: Option<string>)
  {
    s.Some? && s.value != ""
  }

  /**
   * The branches of `fetch`, in the order the source tries them: only GET reads, only POST
   * runs a command, and a resolution always names a non-empty id.
   */
  function RouteOf(httpMethod: string, pathname: string): (r: Route)
    ensures r.Read? ==> httpMethod == "GET"
    ensures r.Resolve? ==> httpMethod == "POST" && r.id != "" && '/' !in r.id
    ensures r.Update? ==> httpMethod == "POST"
  {
    var path := Split(pathname, '/');
    var endpoint := Segment(path, 1);
    var id := Segment(path, 2);
    if httpMethod == "GET" && endpoint.Some? && ResourceOf(endpoint.value).Some? then
      Read(ResourceOf(endpoint.value).value)
    else if httpMethod == "POST" && endpoint == Some("escalations") && Truthy(id) then
      Resolve(id.value)
    else if httpMethod == "POST" && endpoint == Some("configs") then
      Update
    else
      Unmatched
  }

  /** The pathname "/s0/s1/..." made of the given segments. */
  function PathOf(segments: seq<string>): string
  {
    Join([""] + segments, '/')
  }

  /** Segments without `/`, so that they survive a round trip through a pathname. */
  predicate Plain(segments: seq<string>)
  {
    forall i :: 0 <= i < |segments| ==> '/' !in segments[i]
  }

  /** `PathOf` writes the segments out with a `/` before each one. */
  lemma PathText(a: string, b: string)
    ensures PathOf([a]) == "/" + a
    ensures PathOf([a, b]) == "/" + a + "/" + b
  {
    assert [""] + [a] == ["", a] && ["", a][1..] == [a];
    assert Join(["", a], '/') == "" + ['/'] + a;
    assert [""] + [a, b] == ["", a, b] && ["", a, b][1..] == [a, b] && [a, b][1..] == [b];
    assert Join([a, b], '/') == a + ['/'] + b;
    assert Join(["", a, b], '/') == "" + ['/'] + (a + ['/'] + b);
  }

  /** Splitting a pathname on `/` gives back its segments after the leading empty one. */
  lemma SplitPathOf(segments: seq<string>)
    requires Plain(segments)
    ensures Split(PathOf(segments), '/') == [""] + segments
  {
    var parts := [""] + segments;
    forall i | 0 <= i < |parts|
      ensures '/' !in parts[i]
    {
      if i > 0 { assert parts[i] == segments[i - 1]; }
    }
    JoinThenSplit(parts, '/');
  }

  /** GET "/<endpoint>" reads that resource; any further segments are ignored. */
  lemma ReadRoute(r: Resource, more: seq<string>)
    requires Plain(more)
    ensures RouteOf("GET", PathOf([EndpointName(r)] + more)) == Read(r)
  {
    ResourceOfEndpointName(r);
    SplitPathOf([EndpointName(r)] + more);
  }

  /** POST "/escalations/<id>" with a non-empty id resolves that escalation; further segments are ignored. */
  lemma ResolveRoute(id: string, more: seq<string>)
    requires id != "" && '/' !in id && Plain(more)
    ensures RouteOf("POST", PathOf(["escalations", id] + more)) == Resolve(id)
  {
    ResourceOfEndpointName(Escalations);
    SplitPathOf(["escalations", id] + more);
  }

  /** A request other than GET to "/escalations", without an id segment, is Not Found. */
  lemma ResolveNeedsId(httpMethod: string)
    requires httpMethod != "GET"
    ensures RouteOf(httpMethod, PathOf(["escalations"])) == Unmatched
  {
    SplitPathOf(["escalations"]);
  }

  /** So is one whose id segment is empty, whatever follows it. */
  lemma ResolveNeedsNonEmptyId(httpMethod: string, more: seq<string>)
    requires httpMethod != "GET" && Plain(more)
    ensures RouteOf(httpMethod, PathOf(["escalations", ""] + more)) == Unmatched
  {
    SplitPathOf(["escalations", ""] + more);
  }

  /** POST "/configs" updates a configuration, whatever segments follow. */
  lemma UpdateRoute(more: seq<string>)
    requires Plain(more)
    ensures RouteOf("POST", PathOf(["configs"] + more)) == Update
  {
    ResourceOfEndpointName(Configs);
    SplitPathOf(["configs"] + more);
  }

  /** An endpoint the source does not know, or a method other than GET and POST, is Not Found. */
  lemma UnknownRoute(httpMethod: string, endpoint: string, more: seq<string>, pathname: string)
    requires Plain([endpoint] + more)
    requires ResourceOf(endpoint).None?
    ensures RouteOf(httpMethod, PathOf([endpoint] + more)) == Unmatched
    ensures httpMethod != "GET" && httpMethod != "POST" ==> RouteOf(httpMethod, pathname) == Unmatched
  {
    SplitPathOf([endpoint] + more);
  }

  /**
   * A request other than GET to a read-only endpoint, or to "/escalations" without an id,
   * is Not Found: only "/escalations/<id>" and "/configs" take commands.
   */
  lemma NonGetToReadOnly(httpMethod: string, endpoint: string, more: seq<string>)
    requires httpMethod != "GET" && Plain([endpoint] + more)
    requires endpoint != "configs"
    requires endpoint == "escalations" ==> more == [] || more[0] == ""
    ensures RouteOf(httpMethod, PathOf([endpoint] + more)) == Unmatched
  {
    SplitPathOf([endpoint] + more);
    assert ([""] + ([endpoint] + more))[1] == endpoint;
    if more != [] {
      assert ([""] + ([endpoint] + more))[2] == more[0];
    }
  }
}
