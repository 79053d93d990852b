/** Which certificates the layer-4 servers find under the tags they ask for. */
module TcpCertificates {
  import opened Basics
  import opened Discovered
  import opened Coverage
  import opened RouteServing
  import opened EndToEnd
  import Certificates
  import HttpConfig
  import Layer4
  import Registry
  import RegistryLimits
  import RegistryRuns
  import Scan
  import ScanResults

  /** Some certificate is loaded under the tag. */
  ghost predicate Loaded(cfg: HttpConfig.Config, tag: string) {
    exists p :: p in cfg.pairs && p.tag == tag
  }

  lemma {:induction false} LoadedIffTag(routes: seq<Route>, httpsRedirect: bool, cfg: HttpConfig.Config, tag: string)
    requires HttpConfig.Compiles(routes, httpsRedirect, cfg)
    ensures Loaded(cfg, tag) <==> tag in HttpConfig.Tags(routes)
  {
    var order :| Enumerates(order, HttpConfig.Tags(routes))
      && cfg.pairs == HttpConfig.Pairs(HttpConfig.Infos(routes), order);
    if tag in HttpConfig.Tags(routes) {
      assert tag in order;
      var i := PlaceOf(order, tag);
      PairTag(routes, order, i);
      assert cfg.pairs[i] in cfg.pairs;
    }
    if Loaded(cfg, tag) {
      var p :| p in cfg.pairs && p.tag == tag;
      var i := PlaceOf(cfg.pairs, p);
      PairTag(routes, order, i);
    }
  }

  lemma {:induction false} PairTag(routes: seq<Route>, order: seq<string>, i: nat)
    requires Enumerates(order, HttpConfig.Tags(routes)) && i < |order|
    ensures HttpConfig.Pairs(HttpConfig.Infos(routes), order)[i].tag == order[i]
    ensures order[i] in HttpConfig.Tags(routes)
  {
    assert order[i] in order;
  }

  lemma {:induction false} ServedHasCert(past: seq<Certificates.Event>, backends: seq<Backend>,
                                         ios: seq<Certificates.Io>, served: Route)
    requires |backends| == |ios| && served in Serve(Certificates.Run(past), backends, ios, |backends|).served
    ensures HttpConfig.HasCert(served)
  {
    var n := |backends|;
    ServeIsRun(past, backends, ios, n);
    ServedRoutes(Certificates.Run(past), backends, ios, n, served);
    var i :| i < n && ServedFrom(Certificates.Run(AllRequests(past, backends, ios)), backends, served, i);
    Certificates.CachedPaths(AllRequests(past, backends, ios), CertRequest(backends[i].route).Key());
  }

  /** Some enabled route of that tag got its certificate in this change. */
  ghost predicate Earned(past: seq<Certificates.Event>, backends: seq<Backend>, ios: seq<Certificates.Io>, tag: string)
    requires |backends| == |ios|
  {
    exists i :: 0 <= i < |backends| && Survives(Certificates.Run(past), backends, ios, i)
                && HttpConfig.Tag(backends[i].route.subdomain) == tag
  }

  /** A certificate is loaded under a tag exactly when an enabled route of that
      tag got one; the dashboard's tag has one, besides, when it was there before. */
  lemma {:induction false} LoadedIff(past: seq<Certificates.Event>, backends: seq<Backend>, ios: seq<Certificates.Io>,
                                     httpsRedirect: bool, cfg: HttpConfig.Config, tag: string)
    requires |backends| == |ios| && HttpConfig.Compiles(Handed(past, backends, ios), httpsRedirect, cfg)
    ensures Loaded(cfg, tag) <==>
              Earned(past, backends, ios, tag) || (tag == "localhost" && "localhost" in Certificates.Run(past).certs)
  {
    var s, handed := Certificates.Run(past), Handed(past, backends, ios);
    var served := Serve(s, backends, ios, |backends|).served;
    LoadedIffTag(handed, httpsRedirect, cfg, tag);
    RootHasCertIff(past);
    assert forall r :: r in handed <==> r == RootRoute(s) || r in served;
    if Earned(past, backends, ios, tag) {
      var i :| 0 <= i < |backends| && Survives(s, backends, ios, i)
         && HttpConfig.Tag(backends[i].route.subdomain) == tag;
      ServedNames(s, backends, ios, |backends|, backends[i].route.subdomain);
      var r :| r in served && r.subdomain == backends[i].route.subdomain;
      ServedHasCert(past, backends, ios, r);
    }
    if tag in HttpConfig.Tags(handed) {
      var r :| r in handed && HttpConfig.HasCert(r) && HttpConfig.Tag(r.subdomain) == tag;
      if r in served {
        ServedNames(s, backends, ios, |backends|, r.subdomain);
      }
    }
  }

  lemma {:induction false} RootHasCertIff(past: seq<Certificates.Event>)
    ensures var root := RootRoute(Certificates.Run(past));
            && root.subdomain == ""
            && (HttpConfig.HasCert(root) <==> "localhost" in Certificates.Run(past).certs)
  {
    if "localhost" in Certificates.Run(past).certs {
      Certificates.CachedPaths(past, "localhost");
    }
  }

  /** The route that a TLS connection to a TCP port is for. */
  lemma {:induction false} ChosenRoute(routes: seq<Route>, port: int, sni: string) returns (i: nat)
    requires port in Layer4.Ports(routes)
    ensures i < |routes| && routes[i].tcpPort == port
    ensures Layer4.Destination(routes, port, Layer4.Tls(sni))
         == Layer4.Proxied(Some(HttpConfig.Tag(routes[i].subdomain)), routes[i].endpoint)
  {
    var here := Layer4.OnPort(routes, port);
    Layer4.OnPortNonempty(routes, port);
    var chosen := Layer4.FirstNamed(here, sni).GetOr(here[0]);
    assert chosen in here;
    i := PlaceOf(routes, chosen);
  }

  /** The certificate of a route was there, or could be made, when its turn came. */
  predicate CertificateHad(past: seq<Certificates.Event>, backends: seq<Backend>, ios: seq<Certificates.Io>, i: nat)
    requires i < |backends| == |ios|
  {
    Certificates.Succeeds(Serve(Certificates.Run(past), backends, ios, i).certs, CertRequest(backends[i].route), ios[i])
  }

  /** Every TLS connection to a TCP port goes to one route of that port, and the
      certificate its server asks for is loaded if and only if some enabled route
      with that tag got one, or it is the dashboard's and was there before. */
  lemma {:induction false} TcpCertificateLoadedIff(routes: seq<Route>, backends: seq<Backend>,
      past: seq<Certificates.Event>, ios: seq<Certificates.Io>, httpsRedirect: bool, cfg: HttpConfig.Config,
      servers: map<string, Layer4.Server>, port: int, sni: string)
    returns (i: nat)
    requires |routes| == |backends| == |ios| && forall j :: 0 <= j < |routes| ==> routes[j] == backends[j].route
    requires HttpConfig.Compiles(Handed(past, backends, ios), httpsRedirect, cfg)
    requires Layer4.ServesPorts(servers, routes, Layer4.Ports(routes)) && port in Layer4.Ports(routes)
    ensures i < |routes| && routes[i].tcpPort == port
    ensures var tag := HttpConfig.Tag(routes[i].subdomain);
            && Layer4.Served(servers, port, Layer4.Tls(sni)) == Layer4.Proxied(Some(tag), routes[i].endpoint)
            && (Loaded(cfg, tag) <==>
                  || Earned(past, backends, ios, tag)
                  || (tag == "localhost" && "localhost" in Certificates.Run(past).certs))
  {
    i := ChosenRoute(routes, port, sni);
    Layer4.L4AppMeans(routes, servers, port, Layer4.Tls(sni));
    LoadedIff(past, backends, ios, httpsRedirect, cfg, HttpConfig.Tag(routes[i].subdomain));
  }

  // ---- No disabled route has a TCP port --------------------------------------------------------

  /** Batches as scans build them: a process has no TCP port, and a well-known
      listener is not disabled. */
  ghost predicate ScannedBatch(source: Source, batch: seq<Service>) {
    && (source == Process ==> forall s :: s in batch ==> s.tcpPort == 0)
    && (source == WellKnown ==> forall s :: s in batch && s.process.Some? ==> !s.process.value.disabled)
  }

  ghost predicate ScannedRun(events: seq<RegistryRuns.Event>) {
    Watched(events) && forall e :: e in events && e.Reports? ==> ScannedBatch(e.source, e.services)
  }

  lemma {:induction false} ScansAreScanned(plan: Scan.Plan, results: seq<Service>)
    requires plan.Valid() && Scan.Found(plan, |plan.listeners|, results)
    ensures ScannedBatch(Process, ScanResults.BySource(results, Process))
    ensures ScannedBatch(WellKnown, ScanResults.BySource(results, WellKnown))
  {
    forall s | s in results
      ensures s.source == Process ==> s.tcpPort == 0
      ensures s.source == WellKnown && s.process.Some? ==> !s.process.value.disabled
    {
      var k := PlaceOf(results, s);
      var i := ScanResults.Origin(plan, results, k);
    }
  }

  predicate TcpEnabled(svc: Service) { svc.process.Some? && svc.process.value.disabled ==> svc.tcpPort == 0 }

  lemma {:induction false} ClaimsTcpEnabled(source: Source, batch: seq<Service>, groups: Registry.Groups,
                                            mappings: map<string, Mapping>)
    requires !source.Other? && RegistryRuns.FromWatcher(source, batch) && ScannedBatch(source, batch)
    ensures forall c :: c in Registry.Claims(batch, groups, mappings) ==> TcpEnabled(c)
  {
    var claims := Registry.Claims(batch, groups, mappings);
    forall c | c in claims ensures TcpEnabled(c) {
      var i := PlaceOf(claims, c);
      assert batch[i] in batch;
    }
  }

  lemma {:induction false} CurrentTcpEnabled(events: seq<RegistryRuns.Event>, source: Source)
    requires ScannedRun(events)
    ensures forall c :: c in RegistryRuns.Current(events, source) ==> TcpEnabled(c)
  {
    if events != [] {
      var init, e := events[..|events| - 1], events[|events| - 1];
      assert e in events && forall x :: x in init ==> x in events;
      CurrentTcpEnabled(init, source);
      if e.Reports? && e.source == source {
        var groups := Registry.Regroup(RegistryRuns.Run(init).groups, source, e.services);
        ClaimsTcpEnabled(source, e.services, groups, e.mappings);
      }
    }
  }

  /** In every run of the watchers a published route that is disabled has no TCP
      port, so that no TCP server is ever compiled for one. */
  lemma {:induction false} DisabledHasNoTcpPort(events: seq<RegistryRuns.Event>, routes: seq<Route>,
                                                backends: seq<Backend>, i: nat)
    requires ScannedRun(events) && Registry.Published(RegistryRuns.Run(events), routes, backends)
    requires i < |backends| && backends[i].disabled
    ensures routes[i].tcpPort == 0
  {
    var st := RegistryRuns.Run(events);
    var name := Place(st, routes, backends, i);
    if name.Some? {
      StoredTcpEnabled(events, name.value);
    }
  }

  lemma {:induction false} StoredTcpEnabled(events: seq<RegistryRuns.Event>, name: string)
    requires ScannedRun(events) && name in RegistryRuns.Run(events).services
    ensures TcpEnabled(RegistryRuns.Run(events).services[name])
  {
    assert RegistryRuns.WellFormed(events);
    RegistryRuns.Provenance(events, name);
    var source := RegistryRuns.Run(events).services[name].source;
    CurrentTcpEnabled(events, source);
  }

  // ---- Which connections find their certificate ---------------------------------------------------

  /** In every run of the watchers, whatever names clash: the route that a TLS
      connection to a TCP port is for is enabled; its certificate is loaded if it
      was there or could be made, and only then unless another route shares its
      name. */
  lemma {:induction false} TcpRouteServedIff(events: seq<RegistryRuns.Event>, routes: seq<Route>,
      backends: seq<Backend>, past: seq<Certificates.Event>, ios: seq<Certificates.Io>, httpsRedirect: bool,
      cfg: HttpConfig.Config, servers: map<string, Layer4.Server>, port: int, sni: string)
    returns (i: nat)
    requires ScannedRun(events) && Registry.Published(RegistryRuns.Run(events), routes, backends)
    requires |ios| == |backends|
    requires HttpConfig.Compiles(Handed(past, backends, ios), httpsRedirect, cfg)
    requires Layer4.ServesPorts(servers, routes, Layer4.Ports(routes)) && port in Layer4.Ports(routes)
    ensures i < |routes| && routes[i].tcpPort == port && !backends[i].disabled
    ensures Layer4.Served(servers, port, Layer4.Tls(sni))
         == Layer4.Proxied(Some(HttpConfig.Tag(routes[i].subdomain)), routes[i].endpoint)
    ensures CertificateHad(past, backends, ios, i) ==> Loaded(cfg, HttpConfig.Tag(routes[i].subdomain))
    ensures Alone(routes, i) ==>
              (Loaded(cfg, HttpConfig.Tag(routes[i].subdomain)) <==> CertificateHad(past, backends, ios, i))
  {
    i := TcpCertificateLoadedIff(routes, backends, past, ios, httpsRedirect, cfg, servers, port, sni);
    if backends[i].disabled {
      DisabledHasNoTcpPort(events, routes, backends, i);
    }
    var tag := HttpConfig.Tag(routes[i].subdomain);
    if CertificateHad(past, backends, ios, i) {
      assert Survives(Certificates.Run(past), backends, ios, i);
    }
    if Alone(routes, i) {
      assert backends[0] == Registry.PlainBackend(Registry.ROOT_ROUTE, WellKnown) && i != 0;
      EarnedAlone(routes, backends, past, ios, i);
    }
  }

  /** No other route has the tag of this one. */
  predicate Alone(routes: seq<Route>, i: nat)
    requires i < |routes|
  {
    forall j :: 0 <= j < |routes| && j != i ==>
      HttpConfig.Tag(routes[j].subdomain) != HttpConfig.Tag(routes[i].subdomain)
  }

  lemma {:induction false} EarnedAlone(routes: seq<Route>, backends: seq<Backend>,
                                       past: seq<Certificates.Event>, ios: seq<Certificates.Io>, i: nat)
    requires |routes| == |backends| == |ios| && forall j :: 0 <= j < |routes| ==> routes[j] == backends[j].route
    requires i < |routes| && Alone(routes, i) && !backends[i].disabled
    ensures Earned(past, backends, ios, HttpConfig.Tag(routes[i].subdomain))
       <==> CertificateHad(past, backends, ios, i)
  {
    var tag := HttpConfig.Tag(routes[i].subdomain);
    if Earned(past, backends, ios, tag) {
      var j :| 0 <= j < |backends| && Survives(Certificates.Run(past), backends, ios, j)
            && HttpConfig.Tag(backends[j].route.subdomain) == tag;
      assert routes[j].subdomain == backends[j].route.subdomain;
      assert i == j;
    }
  }

  // ---- A connection that finds none --------------------------------------------------------------

  /** A redis outside the projects, while certificates cannot be generated. */
  lemma {:induction false} RedisWithoutCertificate(l: Scan.Listener, routes: seq<Route>, backends: seq<Backend>,
      ios: seq<Certificates.Io>, httpsRedirect: bool, cfg: HttpConfig.Config,
      servers: map<string, Layer4.Server>, sni: string)
    requires l.endpoint.port == 6379
    requires var redis := Scan.WellKnownService(l);
             Registry.Published(RegistryRuns.Run([RegistryRuns.Reports(WellKnown, [redis], map[])]), routes, backends)
    requires |ios| == |backends| && forall io :: io in ios ==> io == Certificates.GenerateFails
    requires HttpConfig.Compiles(Handed([], backends, ios), httpsRedirect, cfg)
    requires Layer4.ServesPorts(servers, routes, Layer4.Ports(routes))
    ensures Layer4.Served(servers, 16379, Layer4.Tls(sni)) == Layer4.Proxied(Some("redis"), l.endpoint)
    ensures !Loaded(cfg, "redis")
  {
    RedisPublished(l, routes, backends);
    RedisConnection(routes, backends, ios, httpsRedirect, cfg, servers, sni, l.endpoint);
  }

  lemma {:induction false} RedisConnection(routes: seq<Route>, backends: seq<Backend>, ios: seq<Certificates.Io>,
      httpsRedirect: bool, cfg: HttpConfig.Config, servers: map<string, Layer4.Server>, sni: string, ep: Endpoint)
    requires |routes| == |backends| == |ios| == 2
    requires backends[0].route == routes[0] == Registry.ROOT_ROUTE && backends[1].route == routes[1]
    requires routes[1] == Route("redis", ep, 16379, "redis", false, "", "", "")
    requires forall io :: io in ios ==> io == Certificates.GenerateFails
    requires HttpConfig.Compiles(Handed([], backends, ios), httpsRedirect, cfg)
    requires Layer4.ServesPorts(servers, routes, Layer4.Ports(routes))
    ensures Layer4.Served(servers, 16379, Layer4.Tls(sni)) == Layer4.Proxied(Some("redis"), ep)
    ensures !Loaded(cfg, "redis")
  {
    OnlySecond(routes);
    var i := TcpCertificateLoadedIff(routes, backends, [], ios, httpsRedirect, cfg, servers, 16379, sni);
    KeysOfTwo(backends);
    NobodyEarns(backends, ios, "redis");
  }

  lemma {:induction false} OnlySecond(routes: seq<Route>)
    requires |routes| == 2 && routes[0] == Registry.ROOT_ROUTE && routes[1].tcpPort == 16379
    ensures 16379 in Layer4.Ports(routes)
    ensures forall i :: 0 <= i < 2 && routes[i].tcpPort == 16379 ==> i == 1
  {
    assert routes[1] in routes;
  }

  lemma {:induction false} KeysOfTwo(backends: seq<Backend>)
    requires |backends| == 2 && backends[0].route == Registry.ROOT_ROUTE
    requires backends[1].route.subdomain == "redis"
    requires !backends[1].route.hasWildcard && backends[1].route.folderGroup == ""
    ensures forall b :: b in backends ==> PlainKey(b)
  {
    forall b | b in backends ensures PlainKey(b) {
      assert b == backends[0] || b == backends[1];
    }
  }

  predicate PlainKey(b: Backend) {
    CertRequest(b.route).Key() == "localhost" || CertRequest(b.route).Key() == "redis"
  }

  lemma {:induction false} NobodyEarns(backends: seq<Backend>, ios: seq<Certificates.Io>, tag: string)
    requires |backends| == |ios| && forall io :: io in ios ==> io == Certificates.GenerateFails
    requires forall b :: b in backends ==> PlainKey(b)
    ensures !Earned([], backends, ios, tag)
  {
    forall j | 0 <= j < |backends| ensures !Survives(Certificates.Run([]), backends, ios, j) {
      NothingServed(backends, ios, j);
    }
  }

  lemma {:induction false} RedisPublished(l: Scan.Listener, routes: seq<Route>, backends: seq<Backend>)
    requires l.endpoint.port == 6379
    requires var redis := Scan.WellKnownService(l);
             Registry.Published(RegistryRuns.Run([RegistryRuns.Reports(WellKnown, [redis], map[])]), routes, backends)
    ensures |backends| == |routes| == 2
    ensures backends[0] == Registry.PlainBackend(Registry.ROOT_ROUTE, WellKnown) && routes[0] == Registry.ROOT_ROUTE
    ensures routes[1] == backends[1].route
    ensures routes[1] == Route("redis", l.endpoint, 16379, "redis", false, "", "", "")
  {
    var redis := Scan.WellKnownService(l);
    var st := RegistryRuns.Run([RegistryRuns.Reports(WellKnown, [redis], map[])]);
    RedisStored(l);
    OneServiceTable(st, "redis", routes, backends);
  }

  lemma {:induction false} OneServiceTable(st: Registry.State, name: string, routes: seq<Route>, backends: seq<Backend>)
    requires Registry.Published(st, routes, backends)
    requires st.services.Keys == {name} && Registry.SharedFolders(st.groups) == {}
    ensures |routes| == |backends| == 2
    ensures backends[0] == Registry.PlainBackend(Registry.ROOT_ROUTE, WellKnown) && routes[0] == Registry.ROOT_ROUTE
    ensures routes[1] == backends[1].route == Registry.ServiceRoute(st.services[name], st.groups)
  {
    var folders, names :| Enumerates(folders, Registry.SharedFolders(st.groups))
                       && Enumerates(names, st.services.Keys)
                       && backends == Registry.Table(st, folders, names);
    EnumerationLength(folders, {});
    EnumerationLength(names, {name});
    assert names[0] in names;
    assert backends[1 + |folders| + 0] == Registry.ServiceBackend(st.services[name], st.groups);
  }

  lemma {:induction false} RedisStored(l: Scan.Listener)
    requires l.endpoint.port == 6379
    ensures var redis := Scan.WellKnownService(l);
            var st := RegistryRuns.Run([RegistryRuns.Reports(WellKnown, [redis], map[])]);
            && st.services.Keys == {"redis"} && Registry.SharedFolders(st.groups) == {}
            && Registry.ServiceRoute(st.services["redis"], st.groups)
               == Route("redis", l.endpoint, 16379, "redis", false, "", "", "")
  {
    var redis := Scan.WellKnownService(l);
    var e := RegistryRuns.Reports(WellKnown, [redis], map[]);
    assert WELL_KNOWN_PORTS[6379] == WellKnownInfo("redis", false, 16379);
    RegistryLimits.RunOfOne(e);
    var claim := redis.(subdomain := "redis");
    assert Registry.Claims([redis], map[], map[]) == [claim];
    assert [claim][..0] == [];
    assert Registry.RemoveSource(map[], WellKnown) == map[];
    assert Registry.InsertAll(map[], [claim]) == Registry.Insert(map[], claim) == map["redis" := claim];
    assert map["redis" := claim].Keys == {"redis"};
  }

  lemma {:induction false} NothingServed(backends: seq<Backend>, ios: seq<Certificates.Io>, n: nat)
    requires n <= |backends| == |ios| && forall io :: io in ios ==> io == Certificates.GenerateFails
    requires forall b :: b in backends ==> PlainKey(b)
    ensures Serve(Certificates.FRESH, backends, ios, n).certs == Certificates.FRESH
    ensures n < |backends| ==> !Survives(Certificates.FRESH, backends, ios, n)
  {
    assert !Certificates.OnDisk(Certificates.FRESH, "localhost") && !Certificates.OnDisk(Certificates.FRESH, "redis");
    if n > 0 {
      NothingServed(backends, ios, n - 1);
      assert ios[n - 1] in ios && backends[n - 1] in backends;
    }
    if n < |backends| {
      assert ios[n] in ios && backends[n] in backends;
    }
  }
}
