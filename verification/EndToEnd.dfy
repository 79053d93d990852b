/** From what the watchers report to the certificate a browser is shown. */
module EndToEnd {
  import opened Basics
  import opened Discovered
  import opened Registry
  import opened RegistryRuns
  import opened Coverage
  import opened RouteServing
  import Certificates
  import HttpConfig
  import Names
  import RegistryLimits
  import Text

  // ---- Which published routes are coverable -------------------------------------------------

  /** A run as the watchers make it: containers have no process record, well-known
      services no folder, and single updates are containers. */
  ghost predicate Watched(events: seq<Event>) {
    && (forall e :: e in events && e.Reports? ==> !e.source.Other? && FromWatcher(e.source, e.services))
    && (forall e :: e in events && e.Single? ==> e.service.source == Docker && e.service.process.None?)
  }

  /** What is known of an entry by its source alone. */
  predicate LikeWatcher(entry: Service, source: Source) {
    && entry.source == source && !source.Other?
    && (source == Docker ==> entry.process.None?)
    && (source == WellKnown ==> FolderOf(entry) == "")
  }

  lemma {:induction false} ClaimsLikeWatcher(source: Source, batch: seq<Service>, groups: Groups,
                                             mappings: map<string, Mapping>)
    requires !source.Other? && FromWatcher(source, batch)
    ensures forall c :: c in Claims(batch, groups, mappings) ==> LikeWatcher(c, source)
  {
    var claims := Claims(batch, groups, mappings);
    forall c | c in claims ensures LikeWatcher(c, source) {
      var i :| 0 <= i < |claims| && claims[i] == c;
      assert batch[i] in batch;
    }
  }

  lemma {:induction false} CurrentLikeWatcher(events: seq<Event>, source: Source)
    requires Watched(events)
    ensures forall c :: c in Current(events, source) ==> LikeWatcher(c, source)
  {
    if events != [] {
      var init, e := events[..|events| - 1], events[|events| - 1];
      assert e in events && forall x :: x in init ==> x in events;
      CurrentLikeWatcher(init, source);
      if e.Reports? && e.source == source {
        ClaimsLikeWatcher(source, e.services, Regroup(Run(init).groups, source, e.services), e.mappings);
      }
    }
  }

  /** A stored service that carries a folder group is a process. */
  lemma {:induction false} GroupedIsProcess(events: seq<Event>, name: string)
    requires Watched(events) && name in Run(events).services
    requires GroupName(Run(events).services[name], Run(events).groups) != ""
    ensures Run(events).services[name].source == Process && Run(events).services[name].process.Some?
  {
    var entry := Run(events).services[name];
    assert WellFormed(events);
    Provenance(events, name);
    CurrentLikeWatcher(events, entry.source);
  }

  /** A grouped service that is shown is a process named by the mapping it had at
      the latest process report. */
  lemma {:induction false} GroupedIsMapped(events: seq<Event>, name: string)
    requires Watched(events) && name in Run(events).services
    requires GroupName(Run(events).services[name], Run(events).groups) != ""
    ensures Disciplined(Run(events).services[name], Run(events).groups, LatestMappings(events))
    ensures var p := Run(events).services[name].process.value;
            !p.disabled ==> p.cwd in LatestMappings(events) && name == MappedName(LatestMappings(events)[p.cwd])
  {
    assert WellFormed(events) && SinglesAreContainers(events);
    GroupedIsProcess(events, name);
    Provenance(events, name);
    FolderDiscipline(events, name);
  }

  /** What a caller can look up about a published backend: a route without a
      shared folder must not be called "localhost"; a mapped process of a shared
      folder must have been mapped in that folder, or in one whose name makes the
      same host. The mappings are those of the latest process report, which may
      not be those now in the store. */
  predicate NameFits(b: Backend, mappings: map<string, Mapping>) {
    var folder := b.route.folderGroup;
    if b.route.hasWildcard || folder == "" then b.route.subdomain != "localhost"
    else
      && b.cwd in mappings && folder != "localhost"
      && var m := mappings[b.cwd];
         m.folderGroup == folder || MappedName(m) == folder || "*." + m.folderGroup == folder
  }

  /** A mapped process of a shared folder is covered exactly when its mapping was
      stored for that folder, or spells it another way. */
  lemma {:induction false} MappedProcessCoveredIff(entry: Service, groups: Groups, mappings: map<string, Mapping>)
    requires Disciplined(entry, groups, mappings)
    requires GroupName(entry, groups) != "" && !entry.process.value.disabled
    requires var mapped := mappings[entry.process.value.cwd].subdomain; mapped != "" && '.' !in mapped
    ensures Coverable(ServiceRoute(entry, groups)) <==> NameFits(ServiceBackend(entry, groups), mappings)
  {
    var m := mappings[entry.process.value.cwd];
    var name := MappedName(m);
    Text.IndexAppended(m.subdomain, '.', m.folderGroup);
    assert m.subdomain + ['.'] + m.folderGroup == name;
    assert name[|m.subdomain| + 1..] == m.folderGroup;
    assert name[|m.subdomain|] == '.';
    assert '.' !in "proxy";
    var folder := GroupName(entry, groups);
    assert |folder| >= 2 && folder[..2] == "*." ==> folder == "*." + folder[2..];
    assert ("*." + m.folderGroup)[2..] == m.folderGroup;
  }

  /** The dashboard stores no mapping whose subdomain is not a label. */
  ghost predicate Accepted(mappings: map<string, Mapping>) {
    forall cwd :: cwd in mappings ==> Names.Label(mappings[cwd].subdomain)
  }

  lemma {:induction false} StoredCoverableIff(events: seq<Event>, name: string)
    requires Watched(events) && Accepted(LatestMappings(events)) && name in Run(events).services
    requires var p := Run(events).services[name].process; p.Some? ==> !p.value.disabled
    ensures var b := ServiceBackend(Run(events).services[name], Run(events).groups);
            Coverable(b.route) <==> NameFits(b, LatestMappings(events))
  {
    var entry, groups := Run(events).services[name], Run(events).groups;
    if GroupName(entry, groups) != "" {
      GroupedIsMapped(events, name);
      Names.LabelPlain(LatestMappings(events)[entry.process.value.cwd].subdomain);
      MappedProcessCoveredIff(entry, groups, LatestMappings(events));
    }
  }

  /** In every reachable state: which of the published routes their certificate
      covers. */
  lemma {:induction false} PublishedCoverableIff(events: seq<Event>, routes: seq<Route>, backends: seq<Backend>, i: nat)
    requires Watched(events) && Accepted(LatestMappings(events)) && Published(Run(events), routes, backends)
    requires i < |backends| && !backends[i].disabled && backends[i].route.subdomain != ""
    ensures Coverable(backends[i].route) <==> NameFits(backends[i], LatestMappings(events))
  {
    var name := Place(Run(events), routes, backends, i);
    if name.Some? {
      StoredCoverableIff(events, name.value);
    }
  }

  /** The place of a published backend: that of a service, or the root's or a
      folder's. */
  lemma {:induction false} Place(st: State, routes: seq<Route>, backends: seq<Backend>,
                                 i: nat) returns (name: Option<string>)
    requires Published(st, routes, backends) && i < |backends|
    ensures name.Some? ==> name.value in st.services
                             && backends[i] == ServiceBackend(st.services[name.value], st.groups)
    ensures name.None? ==> backends[i].route.hasWildcard || backends[i].route.folderGroup == ""
    ensures name.None? ==> !backends[i].disabled && backends[i].route.tcpPort == 0
  {
    var folders, names :| Enumerates(folders, SharedFolders(st.groups))
                       && Enumerates(names, st.services.Keys)
                       && backends == Table(st, folders, names);
    var n := 1 + |folders|;
    if i >= n {
      assert backends[n + (i - n)] == ServiceBackend(st.services[names[i - n]], st.groups);
      name := Some(names[i - n]);
    } else {
      name := None;
      if i > 0 {
        assert backends[1 + (i - 1)] == PlainBackend(FolderRoute(folders[i - 1]), Process);
      }
    }
  }

  // ---- Which certificate a browser is shown ---------------------------------------------------

  /** The routes handed to the proxy by one change of routes. */
  function Handed(past: seq<Certificates.Event>, backends: seq<Backend>, ios: seq<Certificates.Io>): seq<Route>
    requires |backends| == |ios|
  {
    [RootRoute(Certificates.Run(past))] + Serve(Certificates.Run(past), backends, ios, |backends|).served
  }

  /** Enabled routes called "localhost" or nothing ask for the dashboard's names. */
  lemma {:induction false} LocalhostRequest(events: seq<Event>, routes: seq<Route>, backends: seq<Backend>, i: nat)
    requires Watched(events) && Published(Run(events), routes, backends)
    requires i < |backends| && !backends[i].disabled
    requires HttpConfig.Tag(backends[i].route.subdomain) == "localhost"
    ensures CertRequest(backends[i].route).subdomain == "localhost"
    ensures backends[i].route.subdomain == "localhost" ==> !NameFits(backends[i], LatestMappings(events))
  {
    var b := backends[i];
    var name := Place(Run(events), routes, backends, i);
    if name.Some? {
      GroupedNameDotted(events, name.value);
      NoDot(name.value);
    }
    assert b.route.hasWildcard || b.route.folderGroup == "";
  }

  lemma {:induction false} NoDot(name: string)
    requires HttpConfig.Tag(name) == "localhost"
    ensures '.' !in name
  {}

  /** Shown processes of shared folders have a dot in their name. */
  lemma {:induction false} GroupedNameDotted(events: seq<Event>, name: string)
    requires Watched(events) && name in Run(events).services
    ensures Run(events).services[name].subdomain == name
    ensures var b := ServiceBackend(Run(events).services[name], Run(events).groups);
            b.route.folderGroup != "" && !b.disabled ==> '.' in name
  {
    assert WellFormed(events);
    Provenance(events, name);
    if GroupName(Run(events).services[name], Run(events).groups) != "" {
      GroupedIsMapped(events, name);
      var p := Run(events).services[name].process.value;
      if !p.disabled {
        var m := LatestMappings(events)[p.cwd];
        assert MappedName(m)[|m.subdomain|] == '.';
      }
    }
  }

  lemma {:induction false} DashboardNamesMiss(wildcard: bool, host: string)
    requires host in HttpConfig.Hosts("localhost") || host == "internal"
    ensures !Covers(Certificates.Request("localhost", wildcard).DnsNames(), host)
  {
    if host == "internal" {
      RootCertificateMissesInternal(ROOT_ROUTE);
    } else {
      LocalhostNamesCover("localhost", if host == "localhost" + LOCALHOST then LOCALHOST else INTERNAL);
    }
  }

  /** A route handed to the proxy with the tag "localhost" has no certificate for
      the hosts of a service called "localhost", nor for "internal". */
  lemma {:induction false} LocalhostTagMisses(events: seq<Event>, routes: seq<Route>, backends: seq<Backend>,
                           past: seq<Certificates.Event>, ios: seq<Certificates.Io>, handed: Route, host: string)
    requires Watched(events) && Published(Run(events), routes, backends) && |ios| == |backends|
    requires Certificates.Compatible(Certificates.Requests(AllRequests(past, backends, ios)))
    requires handed in Handed(past, backends, ios) && HttpConfig.HasCert(handed)
    requires HttpConfig.Tag(handed.subdomain) == "localhost"
    requires host in HttpConfig.Hosts("localhost") || host == "internal"
    ensures !FileCovers(Certificates.Run(AllRequests(past, backends, ios)).files, handed.certPath, host)
  {
    var all := AllRequests(past, backends, ios);
    if handed in Serve(Certificates.Run(past), backends, ios, |backends|).served {
      var i := ServedKept(past, backends, ios, handed);
      LocalhostRequest(events, routes, backends, i);
      DashboardNamesMiss(CertRequest(backends[i].route).wildcard, host);
    } else {
      var root := Certificates.Request("localhost", false);
      assert backends[0] == PlainBackend(ROOT_ROUTE, WellKnown);
      RequestKept(past, backends, ios, 0);
      assert CertRequest(backends[0].route) == root;
      Certificates.CachedPaths(past, root.Key());
      DashboardNamesMiss(false, host);
    }
  }

  /** End to end, for every run of the watchers, every earlier run of certificate
      requests and every map order: a request for a host of a named route goes to
      the first such route, and the certificate picked for it covers the host if
      and only if no write of that certificate was cut short and the name fits. */
  lemma {:induction false} RequestCoveredIff(events: seq<Event>, routes: seq<Route>, backends: seq<Backend>,
                          past: seq<Certificates.Event>, ios: seq<Certificates.Io>,
                          httpsRedirect: bool, cfg: HttpConfig.Config, subdomain: string, host: string)
    returns (i: nat, pair: HttpConfig.CertPair)
    requires Watched(events) && Accepted(LatestMappings(events)) && Published(Run(events), routes, backends)
    requires |ios| == |backends|
    requires Certificates.Compatible(Certificates.Requests(AllRequests(past, backends, ios)))
    requires HttpConfig.Compiles(Handed(past, backends, ios), httpsRedirect, cfg)
    requires subdomain != "" && host in HttpConfig.Hosts(subdomain)
    requires exists r :: r in Handed(past, backends, ios) && r.subdomain == subdomain
    ensures var all := AllRequests(past, backends, ios);
            var first := HttpConfig.FirstOf(Handed(past, backends, ios), subdomain);
            && first.Some? && ServedFrom(Certificates.Run(all), backends, first.value, i)
            && HttpConfig.Upstream(cfg.https, host) == Some(first.value.endpoint)
            && HttpConfig.PolicyTag(cfg.policies, host) == Some(HttpConfig.Tag(subdomain))
            && (forall p :: p in cfg.pairs && p.tag == HttpConfig.Tag(subdomain) <==> p == pair)
            && (FileCovers(Certificates.Run(all).files, pair.certPath, host) <==>
                  !Certificates.Spoiled(all, CertRequest(backends[i].route))
                  && NameFits(backends[i], LatestMappings(events)))
  {
    var handed, all := Handed(past, backends, ios), AllRequests(past, backends, ios);
    var first := HttpConfig.FirstOf(handed, subdomain).value;
    i := ServedRouteRightIff(past, backends, ios, first);
    forall r | r in handed && r.subdomain == subdomain ensures HttpConfig.HasCert(r) {
      var j := ServedKept(past, backends, ios, r);
    }
    PublishedCoverableIff(events, routes, backends, i);
    var tagged := HttpConfig.Tagged(handed, HttpConfig.Tag(subdomain));
    pair := PairPicked(handed, httpsRedirect, cfg, subdomain, host);
    if subdomain == "localhost" {
      LocalhostRequest(events, routes, backends, i);
      LocalhostTagMisses(events, routes, backends, past, ios, tagged[0], host);
    } else {
      HttpConfig.TaggedFirst(handed, subdomain);
    }
  }

  /** A request for a host of a served subdomain reaches its first route with the
      first certificate of its tag, whatever the map order. */
  lemma {:induction false} PairPicked(handed: seq<Route>, httpsRedirect: bool, cfg: HttpConfig.Config,
                                      subdomain: string, host: string)
    returns (pair: HttpConfig.CertPair)
    requires HttpConfig.Compiles(handed, httpsRedirect, cfg) && host in HttpConfig.Hosts(subdomain)
    requires exists r :: r in handed && r.subdomain == subdomain && HttpConfig.HasCert(r)
    ensures HttpConfig.FirstOf(handed, subdomain).Some?
    ensures HttpConfig.Upstream(cfg.https, host) == Some(HttpConfig.FirstOf(handed, subdomain).value.endpoint)
    ensures HttpConfig.PolicyTag(cfg.policies, host) == Some(HttpConfig.Tag(subdomain))
    ensures forall p :: p in cfg.pairs && p.tag == HttpConfig.Tag(subdomain) <==> p == pair
    ensures var tagged := HttpConfig.Tagged(handed, HttpConfig.Tag(subdomain));
            tagged != [] && pair.certPath == tagged[0].certPath && pair.keyPath == tagged[0].keyPath
  {
    HttpConfig.HostsDisjoint(subdomain, host);
    HttpConfig.UpstreamMeans(handed, host);
    HttpConfig.CertificateMeans(handed, httpsRedirect, cfg, host);
    var tagged := HttpConfig.Tagged(handed, HttpConfig.Tag(subdomain));
    pair := HttpConfig.CertPair(tagged[0].certPath, tagged[0].keyPath, HttpConfig.Tag(subdomain));
  }

  /** The dashboard's host "internal" is never covered. */
  lemma {:induction false} InternalNeverCovered(events: seq<Event>, routes: seq<Route>, backends: seq<Backend>,
                             past: seq<Certificates.Event>, ios: seq<Certificates.Io>,
                             httpsRedirect: bool, cfg: HttpConfig.Config)
    returns (pair: HttpConfig.CertPair)
    requires Watched(events) && Published(Run(events), routes, backends) && |ios| == |backends|
    requires Certificates.Compatible(Certificates.Requests(AllRequests(past, backends, ios)))
    requires HttpConfig.Compiles(Handed(past, backends, ios), httpsRedirect, cfg)
    requires exists r :: r in Handed(past, backends, ios) && r.subdomain == "" && HttpConfig.HasCert(r)
    ensures forall p :: p in cfg.pairs && p.tag == "localhost" <==> p == pair
    ensures HttpConfig.PolicyTag(cfg.policies, "internal") == Some("localhost")
    ensures !FileCovers(Certificates.Run(AllRequests(past, backends, ios)).files, pair.certPath, "internal")
  {
    var handed := Handed(past, backends, ios);
    pair := PairPicked(handed, httpsRedirect, cfg, "", "internal");
    LocalhostTagMisses(events, routes, backends, past, ios, HttpConfig.Tagged(handed, "localhost")[0], "internal");
  }

  // ---- Two routes that their certificate does not cover -----------------------------------------

  /** A container called "localhost". */
  lemma {:induction false} LocalhostContainerUncovered(container: Service)
    requires container.source == Docker && container.process.None? && container.subdomain == "localhost"
    ensures var st := Run([Reports(Docker, [container], map[])]);
            && "localhost" in st.services
            && !Coverable(ServiceRoute(st.services["localhost"], st.groups))
  {
    RegistryLimits.RunOfOne(Reports(Docker, [container], map[]));
    assert Claims([container], EMPTY.groups, map[]) == [container] && [container][..0] == [];
    UpdateAtName(EMPTY, Docker, [container], map[], "localhost");
  }

  /** Two processes of one folder, the first mapped while its directory belonged
      to another folder. */
  lemma {:induction false} MovedProjectUncovered(p: Service, q: Service, m: Mapping)
    requires p.source == q.source == Process && p.process.Some? && q.process.Some?
    requires FolderOf(p) == FolderOf(q) == "new" && p.process.value.cwd == m.cwd != q.process.value.cwd
    requires m.subdomain == "web" && m.folderGroup == "old"
    ensures var st := Run([Reports(Process, [p, q], map[m.cwd := m])]);
            && "web.old" in st.services
            && st.services["web.old"].process.Some? && !st.services["web.old"].process.value.disabled
            && !Coverable(ServiceRoute(st.services["web.old"], st.groups))
  {
    var mappings := map[m.cwd := m];
    var e := Reports(Process, [p, q], mappings);
    RegistryLimits.RunOfOne(e);
    RegistryLimits.TwoInFolder(p, q);
    MovedProjectStored(p, q, m);
    assert Watched([e]);
    assert [e][..0] == [] && LatestMappings([e]) == mappings;
    WebAccepted(m);
    StoredCoverableIff([e], "web.old");
  }

  lemma {:induction false} WebAccepted(m: Mapping)
    requires m.subdomain == "web" && m.folderGroup == "old"
    ensures Accepted(map[m.cwd := m]) && MappedName(m) == "web.old"
  {
    assert Names.LetDig('w') && Names.LetDig('b') && Names.LdhStr("e") && "web"[1..2] == "e";
  }

  lemma {:induction false} MovedProjectStored(p: Service, q: Service, m: Mapping)
    requires p.source == q.source == Process && p.process.Some? && q.process.Some?
    requires FolderOf(p) == FolderOf(q) == "new" && p.process.value.cwd == m.cwd != q.process.value.cwd
    requires m.subdomain == "web" && m.folderGroup == "old" && IsFolderGroup(GroupsOf([p, q]), "new")
    ensures var st := Update(EMPTY, Process, [p, q], map[m.cwd := m]);
            && "web.old" in st.services
            && st.services["web.old"] == Resolved(p, GroupsOf([p, q]), map[m.cwd := m])
  {
    var mappings := map[m.cwd := m];
    var claims := Claims([p, q], GroupsOf([p, q]), mappings);
    assert claims == [Resolved(p, GroupsOf([p, q]), mappings), Resolved(q, GroupsOf([p, q]), mappings)];
    WebAccepted(m);
    assert claims[0].subdomain == MappedName(m) == "web.old";
    assert claims[1].subdomain == PidName(q.process.value.pid);
    assert PidName(q.process.value.pid)[0] == 'p' && "web.old"[0] == 'w';
    assert claims[..1] == [claims[0]];
    assert LastNamed(claims[..1], "web.old") == Some(claims[0]);
    assert LastNamed(claims, "web.old") == Some(claims[0]);
    UpdateAtName(EMPTY, Process, [p, q], mappings, "web.old");
  }
}
