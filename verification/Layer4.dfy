/** Compilation of TCP routes into a layer-4 proxy configuration, and what the
    configuration does with a connection. */
module Layer4 {
  import opened Basics
  import opened Discovered
  import opened Decimal
  import opened HttpConfig

  // ---- The configuration language -----------------------------------------------------

  /** A matcher: TLS with one of some server names, any TLS, or anything. */
  datatype Matcher = TlsNamed(names: seq<string>) | AnyTls | Always

  /** A route terminates TLS with the certificate of `tag`, or not, then proxies. */
  datatype L4Route = L4Route(matcher: Matcher, tag: Option<string>, dial: Endpoint)

  datatype Server = Server(listen: int, routes: seq<L4Route>)

  /** `sni` is "" when the client names no server. */
  datatype Connection = Plaintext | Tls(sni: string)

  datatype Outcome = Refused | Proxied(tag: Option<string>, dial: Endpoint)

  predicate Matches(m: Matcher, c: Connection) {
    match m
    case TlsNamed(names) => c.Tls? && c.sni in names
    case AnyTls => c.Tls?
    case Always => true
  }

  /** The first route that matches handles the connection. */
  function Handle(routes: seq<L4Route>, c: Connection): Outcome {
    if routes == [] then Refused
    else if Matches(routes[0].matcher, c) then Proxied(routes[0].tag, routes[0].dial)
    else Handle(routes[1..], c)
  }

  // ---- What the routes mean -------------------------------------------------------------

  function OnPort(routes: seq<Route>, port: int): seq<Route> {
    Filter(routes, (r: Route) => r.tcpPort == port)
  }

  function Ports(routes: seq<Route>): set<int> {
    set r | r in routes && r.tcpPort > 0 :: r.tcpPort
  }

  function SniNames(r: Route): seq<string> {
    [r.subdomain + ".localhost", r.subdomain + ".internal", r.subdomain]
  }

  /** The first of `routes` that answers to the name `sni`. */
  function FirstNamed(routes: seq<Route>, sni: string): (r: Option<Route>)
    ensures r.None? ==> forall x :: x in routes ==> sni !in SniNames(x)
    ensures r.Some? ==> exists i :: 0 <= i < |routes| && routes[i] == r.value && sni in SniNames(routes[i])
                                    && forall j :: 0 <= j < i ==> sni !in SniNames(routes[j])
  {
    if routes == [] then None
    else if sni in SniNames(routes[0]) then Some(routes[0])
    else
      assert routes == [routes[0]] + routes[1..];
      FirstNamed(routes[1..], sni)
  }

  /** Where a connection to `port` should go: to the first route on that port
      that answers to the requested name, or else to the first on that port;
      plaintext is passed on as it is. */
  function Destination(routes: seq<Route>, port: int, c: Connection): Outcome {
    var here := OnPort(routes, port);
    if port <= 0 || here == [] then Refused
    else match c
      case Plaintext => Proxied(None, here[0].endpoint)
      case Tls(sni) =>
        var chosen := FirstNamed(here, sni).GetOr(here[0]);
        Proxied(Some(Tag(chosen.subdomain)), chosen.endpoint)
  }

  /** What a server listening on `port` does; without one, nothing answers. */
  ghost function Served(servers: map<string, Server>, port: int, c: Connection): Outcome {
    if exists k :: k in servers && servers[k].listen == port then
      var k :| k in servers && servers[k].listen == port;
      Handle(servers[k].routes, c)
    else Refused
  }

  // ---- Compilation ------------------------------------------------------------------------

  function ServerName(port: int): string { "tcp_" + Print(port) }

  function NamedRoute(r: Route): L4Route {
    L4Route(TlsNamed(SniNames(r)), Some(Tag(r.subdomain)), r.endpoint)
  }

  function Compiled(here: seq<Route>): seq<L4Route>
    requires here != []
  {
    seq(|here|, i requires 0 <= i < |here| => NamedRoute(here[i]))
    + [L4Route(AnyTls, Some(Tag(here[0].subdomain)), here[0].endpoint),
       L4Route(Always, None, here[0].endpoint)]
  }

  function ServerNames(ports: set<int>): set<string> {
    set p | p in ports :: ServerName(p)
  }

  function ByPort(routes: seq<Route>): map<int, seq<Route>> {
    map p | p in Ports(routes) :: OnPort(routes, p)
  }

  /** One server per TCP port, under its own name. */
  ghost predicate ServesPorts(servers: map<string, Server>, routes: seq<Route>, ports: set<int>) {
    && servers.Keys == ServerNames(ports)
    && forall p :: p in ports ==>
         && OnPort(routes, p) != []
         && ServerName(p) in servers && servers[ServerName(p)] == Server(p, Compiled(OnPort(routes, p)))
  }

  /** Groups the routes by port, then compiles one server per port, the ports
      coming in any order. No TCP route, no application. */
  method BuildL4App(routes: seq<Route>) returns (app: Option<map<string, Server>>)
    ensures app.None? <==> Ports(routes) == {}
    ensures app.Some? ==> ServesPorts(app.value, routes, Ports(routes))
  {
    var byPort := GroupByPort(routes);
    if |byPort| == 0 {
      assert byPort.Keys == {};
      return None;
    }
    var servers: map<string, Server> := map[];
    var rest := byPort.Keys;
    while rest != {}
      invariant rest <= Ports(routes)
      invariant ServesPorts(servers, routes, Ports(routes) - rest)
    {
      SomeInt(rest);
      var port :| port in rest;
      OnPortNonempty(routes, port);
      var l4Routes := CompileRoutes(byPort[port]);
      AddServer(servers, routes, Ports(routes) - rest, port);
      servers := servers[ServerName(port) := Server(port, l4Routes)];
      OneDone(Ports(routes), rest, port);
      rest := rest - {port};
    }
    assert Ports(routes) - {} == Ports(routes);
    return Some(servers);
  }

  method CompileRoutes(here: seq<Route>) returns (l4Routes: seq<L4Route>)
    requires here != []
    ensures l4Routes == Compiled(here)
  {
    l4Routes := [];
    for i := 0 to |here|
      invariant l4Routes == Compiled(here)[..i]
    {
      l4Routes := l4Routes + [NamedRoute(here[i])];
    }
    l4Routes := l4Routes + [L4Route(AnyTls, Some(Tag(here[0].subdomain)), here[0].endpoint)];
    l4Routes := l4Routes + [L4Route(Always, None, here[0].endpoint)];
  }

  lemma {:induction false} AddServer(servers: map<string, Server>, routes: seq<Route>, ports: set<int>, port: int)
    requires ServesPorts(servers, routes, ports) && OnPort(routes, port) != []
    ensures ServesPorts(servers[ServerName(port) := Server(port, Compiled(OnPort(routes, port)))],
                        routes, ports + {port})
  {
    var after := servers[ServerName(port) := Server(port, Compiled(OnPort(routes, port)))];
    assert after.Keys == ServerNames(ports + {port}) by {
      assert port in ports + {port};
      forall p | p in ports ensures p in ports + {port} && ServerName(p) in ServerNames(ports + {port}) {}
    }
    forall p | p in ports ensures p != port ==> ServerName(p) != ServerName(port) {
      if ServerName(p) == ServerName(port) { ServerNameInjective(p, port); }
    }
  }

  method GroupByPort(routes: seq<Route>) returns (byPort: map<int, seq<Route>>)
    ensures byPort == ByPort(routes)
  {
    byPort := map[];
    for i := 0 to |routes|
      invariant byPort == ByPort(routes[..i])
    {
      var r := routes[i];
      ByPortAppend(routes[..i], r);
      assert routes[..i + 1] == routes[..i] + [r];
      if r.tcpPort <= 0 {
        continue;
      }
      var here := if r.tcpPort in byPort then byPort[r.tcpPort] else [];
      byPort := byPort[r.tcpPort := here + [r]];
    }
    assert routes[..|routes|] == routes;
  }

  lemma {:induction false} OnPortNonempty(routes: seq<Route>, port: int)
    requires port > 0
    ensures OnPort(routes, port) != [] <==> port in Ports(routes)
  {
    HasMember(OnPort(routes, port));
    if port in Ports(routes) {
      var r :| r in routes && r.tcpPort > 0 && r.tcpPort == port;
      assert r in OnPort(routes, port);
    }
  }

  lemma {:induction false} PortsAppend(routes: seq<Route>, r: Route)
    ensures Ports(routes + [r]) == Ports(routes) + (if r.tcpPort > 0 then {r.tcpPort} else {})
  {
    var all := routes + [r];
    assert r in all;
    forall x ensures x in all <==> x in routes || x == r {}
    forall p | p in Ports(routes) ensures p in Ports(all) {
      var x :| x in routes && x.tcpPort > 0 && x.tcpPort == p;
      assert x in all;
    }
  }

  lemma {:induction false} OnPortAppend(routes: seq<Route>, r: Route, port: int)
    ensures OnPort(routes + [r], port) == OnPort(routes, port) + (if r.tcpPort == port then [r] else [])
  {
    assert (routes + [r])[..|routes|] == routes;
  }

  /** `byPort` with one more route filed under its port. */
  function Filed(byPort: map<int, seq<Route>>, r: Route): map<int, seq<Route>> {
    if r.tcpPort <= 0 then byPort
    else byPort[r.tcpPort := (if r.tcpPort in byPort then byPort[r.tcpPort] else []) + [r]]
  }

  lemma {:induction false} FiledAt(routes: seq<Route>, r: Route, p: int)
    requires p in Ports(routes + [r])
    ensures p in Filed(ByPort(routes), r) && OnPort(routes + [r], p) == Filed(ByPort(routes), r)[p]
  {
    PortsAppend(routes, r);
    OnPortAppend(routes, r, p);
    OnPortNonempty(routes, p);
  }

  lemma {:induction false} ByPortAppend(routes: seq<Route>, r: Route)
    ensures ByPort(routes + [r]) == Filed(ByPort(routes), r)
  {
    PortsAppend(routes, r);
    forall p | p in Ports(routes + [r])
      ensures p in Filed(ByPort(routes), r) && OnPort(routes + [r], p) == Filed(ByPort(routes), r)[p]
    {
      FiledAt(routes, r, p);
    }
  }

  lemma {:induction false} ServerNameInjective(p: int, q: int)
    requires ServerName(p) == ServerName(q)
    ensures p == q
  {
    assert ServerName(p)[4..] == Print(p) && ServerName(q)[4..] == Print(q);
    PrintInjective(p, q);
  }

  // ---- Meaning ------------------------------------------------------------------------------

  function Fallbacks(first: Route): seq<L4Route> {
    [L4Route(AnyTls, Some(Tag(first.subdomain)), first.endpoint), L4Route(Always, None, first.endpoint)]
  }

  lemma {:induction false} CompiledMeans(tail: seq<Route>, first: Route, c: Connection)
    ensures Handle(seq(|tail|, i requires 0 <= i < |tail| => NamedRoute(tail[i])) + Fallbacks(first), c)
         == match c
            case Plaintext => Proxied(None, first.endpoint)
            case Tls(sni) =>
              var chosen := FirstNamed(tail, sni).GetOr(first);
              Proxied(Some(Tag(chosen.subdomain)), chosen.endpoint)
  {
    var end := Fallbacks(first);
    var named := seq(|tail|, i requires 0 <= i < |tail| => NamedRoute(tail[i]));
    if tail == [] {
      assert named + end == end && end[1..] == [end[1]];
    } else {
      var rest := tail[1..];
      assert (named + end)[1..] == seq(|rest|, i requires 0 <= i < |rest| => NamedRoute(rest[i])) + end;
      CompiledMeans(rest, first, c);
    }
  }

  /** The compiled application sends every connection, on every port, where it
      should go, whatever the order in which the servers were built. */
  lemma {:induction false} L4AppMeans(routes: seq<Route>, servers: map<string, Server>, port: int, c: Connection)
    requires ServesPorts(servers, routes, Ports(routes))
    ensures Served(servers, port, c) == Destination(routes, port, c)
  {
    if port in Ports(routes) {
      assert servers[ServerName(port)].listen == port;
      forall k | k in servers && servers[k].listen == port ensures k == ServerName(port) {
        var p :| p in Ports(routes) && ServerName(p) == k;
      }
      var here := OnPort(routes, port);
      CompiledMeans(here, here[0], c);
    } else {
      forall k | k in servers ensures servers[k].listen != port {
        var p :| p in Ports(routes) && ServerName(p) == k;
      }
      if port > 0 {
        OnPortNonempty(routes, port);
      }
    }
  }
}
