/** What the daemon does when the registry publishes new tables: it makes sure of
    one certificate per enabled route and compiles both configurations. */
module RouteServing {
  import opened Basics
  import opened Discovered
  import opened Coverage
  import Certificates
  import HttpConfig
  import Layer4
  import Registry

  /** The certificates after the first `n` routes, and the routes that survive. */
  datatype Progress = Progress(certs: Certificates.State, served: seq<Route>)

  /** A published route as it is handed to the HTTP configuration. */
  function WithCert(r: Route, paths: Certificates.Paths): Route {
    Route(r.subdomain, r.endpoint, 0, "", r.hasWildcard, r.folderGroup, paths.certPath, paths.keyPath)
  }

  function PathsIn(s: Certificates.State, q: Certificates.Request): Certificates.Paths {
    if q.Key() in s.certs then s.certs[q.Key()] else Certificates.Paths("", "")
  }

  /** Disabled routes are skipped, and so are routes whose certificate fails. */
  function Serve(s: Certificates.State, backends: seq<Backend>, ios: seq<Certificates.Io>, n: nat): Progress
    requires n <= |backends| == |ios|
  {
    if n == 0 then Progress(s, [])
    else
      var before := Serve(s, backends, ios, n - 1);
      var r := backends[n - 1].route;
      var q := CertRequest(r);
      if backends[n - 1].disabled then before
      else
        var certs := Certificates.Ensured(before.certs, q, ios[n - 1]);
        if !Certificates.Succeeds(before.certs, q, ios[n - 1]) then before.(certs := certs)
        else Progress(certs, before.served + [WithCert(r, PathsIn(certs, q))])
  }

  function RootRoute(s: Certificates.State): Route {
    WithCert(Registry.ROOT_ROUTE, PathsIn(s, Certificates.Request("localhost", false)))
  }

  function Subdomains(routes: seq<Route>): seq<string> {
    seq(|routes|, i requires 0 <= i < |routes| => routes[i].subdomain)
  }

  lemma {:induction false} SubdomainsMore(routes: seq<Route>, r: Route)
    ensures Subdomains(routes + [r]) == Subdomains(routes) + [r.subdomain]
  {}

  method OnRoutesChanged(certMgr: Certificates.CertManager, routes: seq<Route>, backends: seq<Backend>,
                         ios: seq<Certificates.Io>, httpsRedirect: bool)
    returns (caddyRoutes: seq<Route>, hosts: seq<string>,
             cfg: HttpConfig.Config, l4: Option<map<string, Layer4.Server>>)
    requires |routes| == |backends| == |ios| && forall i :: 0 <= i < |routes| ==> routes[i] == backends[i].route
    modifies certMgr
    ensures var done := Serve(old(certMgr.View()), backends, ios, |backends|);
            && certMgr.View() == done.certs
            && caddyRoutes == [RootRoute(old(certMgr.View()))] + done.served
            && hosts == Subdomains(done.served)
    ensures HttpConfig.Compiles(caddyRoutes, httpsRedirect, cfg)
    ensures l4.None? <==> Layer4.Ports(routes) == {}
    ensures l4.Some? ==> Layer4.ServesPorts(l4.value, routes, Layer4.Ports(routes))
  {
    var root := certMgr.GetPaths(Certificates.Request("localhost", false));
    caddyRoutes := [WithCert(Registry.ROOT_ROUTE, root)];
    hosts := [];
    ghost var before := certMgr.View();
    ghost var served := [];
    for i := 0 to |routes|
      invariant certMgr.View() == Serve(before, backends, ios, i).certs
      invariant served == Serve(before, backends, ios, i).served
      invariant caddyRoutes == [RootRoute(before)] + served
      invariant hosts == Subdomains(served)
    {
      var r := routes[i];
      if backends[i].disabled {
        continue;
      }
      var certKey := if r.subdomain == "" then "localhost" else r.subdomain;
      var useWildcard := r.hasWildcard || r.folderGroup != "";
      var request := Certificates.Request(certKey, false);
      if useWildcard {
        var wildcardKey := certKey;
        if r.folderGroup != "" && !r.hasWildcard {
          wildcardKey := r.folderGroup;
        }
        request := Certificates.Request(wildcardKey, true);
      }
      var ok := certMgr.EnsureCertInternal(request, ios[i]);
      if !ok {
        continue;
      }
      var paths := certMgr.GetPaths(request);
      SubdomainsMore(served, WithCert(r, paths));
      caddyRoutes := caddyRoutes + [WithCert(r, paths)];
      hosts := hosts + [r.subdomain];
      served := served + [WithCert(r, paths)];
    }
    l4 := Layer4.BuildL4App(routes);
    cfg := HttpConfig.BuildCaddyConfig(caddyRoutes, httpsRedirect);
  }

  // ---- Every served route has the right certificate -----------------------------------------

  /** The certificate requests of the first `n` routes, as a run. */
  function Issued(backends: seq<Backend>, ios: seq<Certificates.Io>, n: nat): seq<Certificates.Event>
    requires n <= |backends| == |ios|
  {
    if n == 0 then []
    else if backends[n - 1].disabled then Issued(backends, ios, n - 1)
    else Issued(backends, ios, n - 1) + [Certificates.Ensure(CertRequest(backends[n - 1].route), ios[n - 1])]
  }

  lemma {:induction false} ServeIsRun(past: seq<Certificates.Event>, backends: seq<Backend>,
                                      ios: seq<Certificates.Io>, n: nat)
    requires n <= |backends| == |ios|
    ensures Serve(Certificates.Run(past), backends, ios, n).certs
         == Certificates.Run(past + Issued(backends, ios, n))
  {
    if n == 0 {
      assert past + [] == past;
    } else {
      ServeIsRun(past, backends, ios, n - 1);
      if !backends[n - 1].disabled {
        var e := Certificates.Ensure(CertRequest(backends[n - 1].route), ios[n - 1]);
        RunMore(past, Issued(backends, ios, n - 1), e);
      }
    }
  }

  lemma {:induction false} RunMore(past: seq<Certificates.Event>, issued: seq<Certificates.Event>,
                                   e: Certificates.Event)
    ensures Certificates.Run(past + (issued + [e])) == Certificates.Step(Certificates.Run(past + issued), e)
  {
    var all := past + (issued + [e]);
    assert all == (past + issued) + [e];
    assert all[..|all| - 1] == past + issued;
  }

  /** `r` is a published, enabled route that was served with its own certificate. */
  ghost predicate ServedFrom(s: Certificates.State, backends: seq<Backend>, served: Route, i: int) {
    && 0 <= i < |backends| && !backends[i].disabled
    && CertRequest(backends[i].route).Key() in s.certs
    && served == WithCert(backends[i].route, s.certs[CertRequest(backends[i].route).Key()])
  }

  lemma {:induction false} ServedRoutes(s: Certificates.State, backends: seq<Backend>,
                                        ios: seq<Certificates.Io>, n: nat, served: Route)
    requires n <= |backends| == |ios|
    requires served in Serve(s, backends, ios, n).served
    ensures exists i :: i < n && ServedFrom(Serve(s, backends, ios, n).certs, backends, served, i)
  {
    var before := Serve(s, backends, ios, n - 1);
    var now := Serve(s, backends, ios, n);
    var r := backends[n - 1].route;
    if served in before.served {
      ServedRoutes(s, backends, ios, n - 1, served);
      var i :| i < n - 1 && ServedFrom(before.certs, backends, served, i);
      assert ServedFrom(now.certs, backends, served, i);
    } else {
      assert served == WithCert(r, PathsIn(now.certs, CertRequest(r)));
      assert ServedFrom(now.certs, backends, served, n - 1);
    }
  }

  lemma {:induction false} IssuedRequest(backends: seq<Backend>, ios: seq<Certificates.Io>, n: nat, i: nat)
    requires i < n <= |backends| == |ios| && !backends[i].disabled
    ensures exists e :: e in Issued(backends, ios, n) && e.Ensure? && e.request == CertRequest(backends[i].route)
  {
    var all := Issued(backends, ios, n);
    if i == n - 1 {
      assert all[|all| - 1] in all;
    } else {
      IssuedRequest(backends, ios, n - 1, i);
    }
  }

  /** All requests up to and including those of one change of routes. */
  function AllRequests(past: seq<Certificates.Event>, backends: seq<Backend>,
                       ios: seq<Certificates.Io>): seq<Certificates.Event>
    requires |backends| == |ios|
  { past + Issued(backends, ios, |backends|) }

  lemma {:induction false} ServedKept(past: seq<Certificates.Event>, backends: seq<Backend>,
                                      ios: seq<Certificates.Io>, served: Route)
    returns (i: nat)
    requires |backends| == |ios|
    requires Certificates.Compatible(Certificates.Requests(AllRequests(past, backends, ios)))
    requires served in Serve(Certificates.Run(past), backends, ios, |backends|).served
    ensures var all := AllRequests(past, backends, ios);
            && Serve(Certificates.Run(past), backends, ios, |backends|).certs == Certificates.Run(all)
            && ServedFrom(Certificates.Run(all), backends, served, i)
            && Certificates.Kept(Certificates.Run(all), CertRequest(backends[i].route),
                                 Certificates.Spoiled(all, CertRequest(backends[i].route)))
  {
    var n, all := |backends|, AllRequests(past, backends, ios);
    ServeIsRun(past, backends, ios, n);
    ServedRoutes(Certificates.Run(past), backends, ios, n, served);
    i :| i < n && ServedFrom(Certificates.Run(all), backends, served, i);
    RequestKept(past, backends, ios, i);
  }

  /** What a request of this change finds on disk afterwards. */
  lemma {:induction false} RequestKept(past: seq<Certificates.Event>, backends: seq<Backend>,
                                       ios: seq<Certificates.Io>, i: nat)
    requires i < |backends| == |ios| && !backends[i].disabled
    requires Certificates.Compatible(Certificates.Requests(AllRequests(past, backends, ios)))
    ensures var all, q := AllRequests(past, backends, ios), CertRequest(backends[i].route);
            Certificates.Kept(Certificates.Run(all), q, Certificates.Spoiled(all, q))
  {
    var n, all := |backends|, AllRequests(past, backends, ios);
    IssuedRequest(backends, ios, n, i);
    var e :| e in Issued(backends, ios, n) && e.Ensure? && e.request == CertRequest(backends[i].route);
    assert e in all && CertRequest(backends[i].route) in Certificates.Requests(all);
    Certificates.CompatibleRunKept(all, Certificates.Requests(all));
  }

  /** The certificate file at `path` is whole and covers `host`. */
  predicate FileCovers(files: map<string, Certificates.File>, path: string, host: string) {
    path in files && files[path].Cert? && Covers(files[path].names, host)
  }

  /** The files of a served route are a certificate and its own private key. */
  predicate OwnPair(files: map<string, Certificates.File>, served: Route) {
    && served.certPath in files && files[served.certPath].Cert?
    && served.keyPath in files && files[served.keyPath] == Certificates.PrivateKey(files[served.certPath].pair)
  }

  /** Whatever certificates came before, if all requests so far are compatible
      then every served route has a certificate with its own key exactly when no
      write of it was cut short; and for a named route that certificate covers
      each of its hosts exactly when, besides, the route is coverable. */
  lemma {:induction false} ServedRouteRightIff(past: seq<Certificates.Event>, backends: seq<Backend>,
                                               ios: seq<Certificates.Io>, served: Route)
    returns (i: nat)
    requires |backends| == |ios|
    requires Certificates.Compatible(Certificates.Requests(AllRequests(past, backends, ios)))
    requires served in Serve(Certificates.Run(past), backends, ios, |backends|).served
    ensures var all := AllRequests(past, backends, ios);
            var spoiled := i < |backends| && Certificates.Spoiled(all, CertRequest(backends[i].route));
            && ServedFrom(Certificates.Run(all), backends, served, i)
            && (OwnPair(Certificates.Run(all).files, served) <==> !spoiled)
            && (served.subdomain != "" ==> forall host :: host in HttpConfig.Hosts(served.subdomain) ==>
                  (FileCovers(Certificates.Run(all).files, served.certPath, host) <==> !spoiled && Coverable(served)))
  {
    i := ServedKept(past, backends, ios, served);
    if served.subdomain != "" {
      forall host | host in HttpConfig.Hosts(served.subdomain)
        ensures Covers(CertRequest(served).DnsNames(), host) <==> Coverable(served)
      {
        RouteCoveredIff(served, host);
      }
    }
    assert CertRequest(served) == CertRequest(backends[i].route);
  }

  // ---- Which layer-4 tags have a certificate --------------------------------------------------

  /** The route is enabled and its certificate was there or could be made. */
  predicate Survives(s: Certificates.State, backends: seq<Backend>, ios: seq<Certificates.Io>, i: nat)
    requires i < |backends| == |ios|
  {
    && !backends[i].disabled
    && Certificates.Succeeds(Serve(s, backends, ios, i).certs, CertRequest(backends[i].route), ios[i])
  }

  lemma {:induction false} ServedNames(s: Certificates.State, backends: seq<Backend>, ios: seq<Certificates.Io>,
                                       n: nat, name: string)
    requires n <= |backends| == |ios|
    ensures (exists r :: r in Serve(s, backends, ios, n).served && r.subdomain == name)
       <==> exists i :: 0 <= i < n && Survives(s, backends, ios, i) && backends[i].route.subdomain == name
  {
    if n > 0 {
      ServedNames(s, backends, ios, n - 1, name);
      var before := Serve(s, backends, ios, n - 1).served;
      ServedMore(before, Serve(s, backends, ios, n).served, name);
    }
  }

  lemma {:induction false} ServedMore(before: seq<Route>, now: seq<Route>, name: string)
    requires now == before || (now != [] && now[..|now| - 1] == before)
    ensures (exists r :: r in now && r.subdomain == name)
       <==> (exists r :: r in before && r.subdomain == name) || (now != before && now[|now| - 1].subdomain == name)
  {
    if now != before {
      assert now == before + [now[|now| - 1]];
      assert now[|now| - 1] in now;
    }
  }
}
