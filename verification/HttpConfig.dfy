/** Compilation of routes into the HTTP and TLS configuration, and which
    upstream and certificate a request gets. */
module HttpConfig {
  import opened Basics
  import opened Discovered
  import opened Text

  // ---- The configuration language -----------------------------------------------------

  datatype HostRoute = HostRoute(hosts: seq<string>, dial: Endpoint)

  datatype HttpServer = Redirect | Proxy(routes: seq<HostRoute>)

  datatype CertPair = CertPair(certPath: string, keyPath: string, tag: string)

  /** A connection policy: for some server names, or for all; the certificate is
      chosen among those of `tag`, or freely. */
  datatype Policy = ForNames(names: seq<string>, tag: string) | Default

  datatype Config = Config(https: seq<HostRoute>, http: HttpServer, pairs: seq<CertPair>, policies: seq<Policy>)

  /** The first route with that host handles the request. */
  function Upstream(routes: seq<HostRoute>, host: string): Option<Endpoint> {
    if routes == [] then None
    else if host in routes[0].hosts then Some(routes[0].dial)
    else Upstream(routes[1..], host)
  }

  /** The first policy for that server name applies; `None` is the default one. */
  function PolicyTag(policies: seq<Policy>, sni: string): Option<string> {
    if policies == [] then None
    else match policies[0]
      case ForNames(names, tag) => if sni in names then Some(tag) else PolicyTag(policies[1..], sni)
      case Default => None
  }

  // ---- What the routes mean ----------------------------------------------------------------

  const LOCALHOST := ".localhost"
  const INTERNAL := ".internal"

  /** The host names of a subdomain; the empty one is the dashboard. */
  function Hosts(subdomain: string): seq<string> {
    if subdomain == "" then ["localhost", "internal"]
    else [subdomain + LOCALHOST, subdomain + INTERNAL]
  }

  function Tag(subdomain: string): string {
    if subdomain == "" then "localhost" else subdomain
  }

  /** The subdomain a host name belongs to. */
  function SubdomainOf(host: string): Option<string> {
    if host == "localhost" || host == "internal" then Some("")
    else if HasSuffix(host, LOCALHOST) && host != LOCALHOST then Some(TrimSuffix(host, LOCALHOST))
    else if HasSuffix(host, INTERNAL) && host != INTERNAL then Some(TrimSuffix(host, INTERNAL))
    else None
  }

  lemma {:induction false} NotBothSuffixes(host: string)
    ensures !(HasSuffix(host, LOCALHOST) && HasSuffix(host, INTERNAL))
  {
    assert LOCALHOST[|LOCALHOST| - 1] == 't' && INTERNAL[|INTERNAL| - 1] == 'l';
    if HasSuffix(host, LOCALHOST) && HasSuffix(host, INTERNAL) {
      SuffixesAgree(host, LOCALHOST, INTERNAL);
    }
  }

  lemma {:induction false} RootHosts()
    ensures !HasSuffix("localhost", LOCALHOST) && !HasSuffix("internal", LOCALHOST)
    ensures !HasSuffix("localhost", INTERNAL) && !HasSuffix("internal", INTERNAL)
  {
    assert "localhost"[|"localhost"| - 9..] == "localhost";
    assert "localhost"[0] == 'l' && INTERNAL[0] == '.';
  }

  lemma {:induction false} DecodeLocalhost(subdomain: string, host: string)
    requires subdomain != ""
    ensures host == subdomain + LOCALHOST <==>
              host != "localhost" && host != "internal" && host != LOCALHOST
              && HasSuffix(host, LOCALHOST) && TrimSuffix(host, LOCALHOST) == subdomain
  {
    RootHosts();
    SuffixAppended(subdomain, LOCALHOST);
    if HasSuffix(host, LOCALHOST) { SuffixRestored(host, LOCALHOST); }
  }

  lemma {:induction false} DecodeInternal(subdomain: string, host: string)
    requires subdomain != ""
    ensures host == subdomain + INTERNAL <==>
              host != "localhost" && host != "internal" && host != INTERNAL
              && HasSuffix(host, INTERNAL) && TrimSuffix(host, INTERNAL) == subdomain
  {
    RootHosts();
    SuffixAppended(subdomain, INTERNAL);
    if HasSuffix(host, INTERNAL) { SuffixRestored(host, INTERNAL); }
  }

  /** Host and server names are disjoint: each belongs to one subdomain only. */
  lemma {:induction false} HostsDisjoint(subdomain: string, host: string)
    ensures host in Hosts(subdomain) <==> SubdomainOf(host) == Some(subdomain)
  {
    if subdomain == "" {
      if host != LOCALHOST && HasSuffix(host, LOCALHOST) { SuffixRestored(host, LOCALHOST); }
      if host != INTERNAL && HasSuffix(host, INTERNAL) { SuffixRestored(host, INTERNAL); }
    } else {
      NotBothSuffixes(host);
      DecodeLocalhost(subdomain, host);
      DecodeInternal(subdomain, host);
    }
  }

  function HasCert(r: Route): bool { r.certPath != "" && r.keyPath != "" }

  /** The first route of a subdomain, which is the one that serves its hosts. */
  function FirstOf(routes: seq<Route>, subdomain: string): (r: Option<Route>)
    ensures r.None? ==> forall x :: x in routes ==> x.subdomain != subdomain
    ensures r.Some? ==> exists i :: 0 <= i < |routes| && routes[i] == r.value && routes[i].subdomain == subdomain
                                    && forall j :: 0 <= j < i ==> routes[j].subdomain != subdomain
  {
    if routes == [] then None
    else if routes[0].subdomain == subdomain then Some(routes[0])
    else
      assert routes == [routes[0]] + routes[1..];
      FirstOf(routes[1..], subdomain)
  }

  /** The routes with a certificate whose tag is `tag`. */
  function Tagged(routes: seq<Route>, tag: string): seq<Route> {
    Filter(routes, (r: Route) => HasCert(r) && Tag(r.subdomain) == tag)
  }

  function Tags(routes: seq<Route>): set<string> {
    set r | r in routes && HasCert(r) :: Tag(r.subdomain)
  }

  // ---- Compilation ---------------------------------------------------------------------------

  datatype CertInfo = CertInfo(certPath: string, keyPath: string, sniNames: seq<string>)

  function AllHosts(routes: seq<Route>): seq<string> {
    if routes == [] then []
    else AllHosts(routes[..|routes| - 1]) + Hosts(routes[|routes| - 1].subdomain)
  }

  function InfoOf(tagged: seq<Route>): CertInfo {
    if tagged == [] then CertInfo("", "", [])
    else CertInfo(tagged[0].certPath, tagged[0].keyPath, AllHosts(tagged))
  }

  /** Certificate information by tag, as the routes define it. */
  function Infos(routes: seq<Route>): map<string, CertInfo> {
    map t | t in Tags(routes) :: InfoOf(Tagged(routes, t))
  }

  function HostRoutes(routes: seq<Route>): seq<HostRoute> {
    seq(|routes|, i requires 0 <= i < |routes| => HostRoute(Hosts(routes[i].subdomain), routes[i].endpoint))
  }

  function PolicyFor(infos: map<string, CertInfo>, tag: string): Policy {
    if tag in infos then ForNames(infos[tag].sniNames, tag) else Default
  }

  function PairFor(infos: map<string, CertInfo>, tag: string): CertPair {
    if tag in infos then CertPair(infos[tag].certPath, infos[tag].keyPath, tag) else CertPair("", "", tag)
  }

  function Policies(infos: map<string, CertInfo>, order: seq<string>): seq<Policy> {
    seq(|order|, i requires 0 <= i < |order| => PolicyFor(infos, order[i]))
  }

  function Pairs(infos: map<string, CertInfo>, order: seq<string>): seq<CertPair> {
    seq(|order|, i requires 0 <= i < |order| => PairFor(infos, order[i]))
  }

  /** `cfg` is what some iteration order of the certificate map produces. */
  ghost predicate Compiles(routes: seq<Route>, httpsRedirect: bool, cfg: Config) {
    && cfg.https == HostRoutes(routes)
    && cfg.http == (if httpsRedirect then Redirect else Proxy(HostRoutes(routes)))
    && exists order ::
         && Enumerates(order, Tags(routes))
         && cfg.policies == Policies(Infos(routes), order) + [Default]
         && cfg.pairs == Pairs(Infos(routes), order)
  }

  method BuildCaddyConfig(routes: seq<Route>, httpsRedirect: bool) returns (cfg: Config)
    ensures Compiles(routes, httpsRedirect, cfg)
  {
    var hostRoutes := [];
    var infos: map<string, CertInfo> := map[];
    for i := 0 to |routes|
      invariant hostRoutes == HostRoutes(routes[..i])
      invariant infos == Infos(routes[..i])
    {
      var r := routes[i];
      assert routes[..i + 1] == routes[..i] + [r];
      hostRoutes := hostRoutes + [HostRoute(Hosts(r.subdomain), r.endpoint)];
      InfosAppend(routes[..i], r);
      infos := NoteCertificate(infos, r);
    }
    assert routes[..|routes|] == routes;
    var pairs, policies := Certificates(infos);
    cfg := Config(hostRoutes, if httpsRedirect then Redirect else Proxy(hostRoutes), pairs, policies + [Default]);
  }

  method NoteCertificate(infos: map<string, CertInfo>, r: Route) returns (after: map<string, CertInfo>)
    ensures after == Noted(infos, r)
  {
    after := infos;
    var tag := Tag(r.subdomain);
    if r.certPath != "" && r.keyPath != "" {
      if tag in infos {
        var existing := infos[tag];
        after := infos[tag := existing.(sniNames := existing.sniNames + Hosts(r.subdomain))];
      } else {
        after := infos[tag := CertInfo(r.certPath, r.keyPath, Hosts(r.subdomain))];
      }
    }
  }

  method Certificates(infos: map<string, CertInfo>) returns (pairs: seq<CertPair>, policies: seq<Policy>)
    ensures exists order :: Enumerates(order, infos.Keys)
             && policies == Policies(infos, order) && pairs == Pairs(infos, order)
  {
    pairs, policies := [], [];
    var rest := infos.Keys;
    ghost var order := [];
    while rest != {}
      invariant rest <= infos.Keys && Enumerates(order, infos.Keys - rest)
      invariant policies == Policies(infos, order)
      invariant pairs == Pairs(infos, order)
    {
      var tag :| tag in rest;
      var info := infos[tag];
      pairs := pairs + [CertPair(info.certPath, info.keyPath, tag)];
      policies := policies + [ForNames(info.sniNames, tag)];
      rest := rest - {tag};
      order := order + [tag];
    }
  }

  /** The effect of one more route on the certificate map. */
  function Noted(infos: map<string, CertInfo>, r: Route): map<string, CertInfo> {
    var tag := Tag(r.subdomain);
    if !HasCert(r) then infos
    else if tag in infos then infos[tag := infos[tag].(sniNames := infos[tag].sniNames + Hosts(r.subdomain))]
    else infos[tag := CertInfo(r.certPath, r.keyPath, Hosts(r.subdomain))]
  }

  lemma {:induction false} TagsAppend(routes: seq<Route>, r: Route)
    ensures Tags(routes + [r]) == Tags(routes) + (if HasCert(r) then {Tag(r.subdomain)} else {})
  {
    var all := routes + [r];
    assert r in all;
    forall x ensures x in all <==> x in routes || x == r {}
    forall t | t in Tags(routes) ensures t in Tags(all) {
      var x :| x in routes && HasCert(x) && Tag(x.subdomain) == t;
      assert x in all;
    }
  }

  lemma {:induction false} TaggedAppend(routes: seq<Route>, r: Route, tag: string)
    ensures Tagged(routes + [r], tag)
         == Tagged(routes, tag) + (if HasCert(r) && Tag(r.subdomain) == tag then [r] else [])
  {
    assert (routes + [r])[..|routes|] == routes;
  }

  lemma {:induction false} TaggedNonempty(routes: seq<Route>, tag: string)
    ensures Tagged(routes, tag) != [] <==> tag in Tags(routes)
  {
    HasMember(Tagged(routes, tag));
    if tag in Tags(routes) {
      var r :| r in routes && HasCert(r) && Tag(r.subdomain) == tag;
      assert r in Tagged(routes, tag);
    }
  }

  lemma {:induction false} InfoAppend(tagged: seq<Route>, r: Route)
    ensures InfoOf(tagged + [r]) == if tagged == [] then CertInfo(r.certPath, r.keyPath, Hosts(r.subdomain))
              else InfoOf(tagged).(sniNames := InfoOf(tagged).sniNames + Hosts(r.subdomain))
  {
    assert (tagged + [r])[..|tagged|] == tagged;
    assert AllHosts([]) + Hosts(r.subdomain) == Hosts(r.subdomain);
  }

  lemma {:induction false} NotedEntry(infos: map<string, CertInfo>, tagged: seq<Route>, r: Route, t: string)
    requires tagged == [] <==> t !in infos
    requires t in infos ==> infos[t] == InfoOf(tagged)
    requires t in infos || (HasCert(r) && Tag(r.subdomain) == t)
    ensures t in Noted(infos, r)
    ensures Noted(infos, r)[t] == InfoOf(tagged + (if HasCert(r) && Tag(r.subdomain) == t then [r] else []))
  {
    if HasCert(r) && Tag(r.subdomain) == t {
      InfoAppend(tagged, r);
    } else {
      assert tagged + [] == tagged;
    }
  }

  lemma {:induction false} NotedAt(routes: seq<Route>, r: Route, t: string)
    requires t in Tags(routes + [r])
    ensures t in Noted(Infos(routes), r)
    ensures Noted(Infos(routes), r)[t] == InfoOf(Tagged(routes + [r], t))
  {
    TagsAppend(routes, r);
    TaggedAppend(routes, r, t);
    TaggedNonempty(routes, t);
    NotedEntry(Infos(routes), Tagged(routes, t), r, t);
  }

  lemma {:induction false} InfosAppend(routes: seq<Route>, r: Route)
    ensures Infos(routes + [r]) == Noted(Infos(routes), r)
  {
    TagsAppend(routes, r);
    forall t | t in Tags(routes + [r])
      ensures t in Noted(Infos(routes), r) && Noted(Infos(routes), r)[t] == InfoOf(Tagged(routes + [r], t))
    {
      NotedAt(routes, r, t);
    }
  }

  // ---- Meaning -------------------------------------------------------------------------------

  /** A request goes to the first route of the subdomain its host belongs to. */
  lemma {:induction false} UpstreamMeans(routes: seq<Route>, host: string)
    ensures Upstream(HostRoutes(routes), host) ==
              if SubdomainOf(host).Some? && FirstOf(routes, SubdomainOf(host).value).Some?
              then Some(FirstOf(routes, SubdomainOf(host).value).value.endpoint) else None
  {
    if routes != [] {
      HostsDisjoint(routes[0].subdomain, host);
      assert HostRoutes(routes)[1..] == HostRoutes(routes[1..]);
      UpstreamMeans(routes[1..], host);
    }
  }

  lemma {:induction false} InAllHosts(routes: seq<Route>, host: string)
    ensures host in AllHosts(routes) <==> exists r :: r in routes && SubdomainOf(host) == Some(r.subdomain)
  {
    if routes != [] {
      var init, last := routes[..|routes| - 1], routes[|routes| - 1];
      assert routes == init + [last];
      HostsDisjoint(last.subdomain, host);
      InAllHosts(init, host);
      assert last in routes;
      forall x ensures x in routes <==> x in init || x == last {}
    }
  }

  /** The tag a server name should select: that of its subdomain, if some route
      of the subdomain has a certificate. */
  ghost function TagFor(routes: seq<Route>, sni: string): Option<string> {
    if exists r :: r in routes && HasCert(r) && SubdomainOf(sni) == Some(r.subdomain)
    then Some(Tag(SubdomainOf(sni).value)) else None
  }

  /** A name is listed under one tag at most, and it is the right one. */
  lemma {:induction false} ListedUnderOneTag(routes: seq<Route>, tag: string, sni: string)
    requires tag in Tags(routes)
    ensures sni in Infos(routes)[tag].sniNames <==> TagFor(routes, sni) == Some(tag)
  {
    var tagged := Tagged(routes, tag);
    TaggedNonempty(routes, tag);
    InAllHosts(tagged, sni);
    if sni in AllHosts(tagged) {
      var r :| r in tagged && SubdomainOf(sni) == Some(r.subdomain);
      assert r in routes && HasCert(r) && Tag(r.subdomain) == tag;
    }
    if TagFor(routes, sni) == Some(tag) {
      var r :| r in routes && HasCert(r) && SubdomainOf(sni) == Some(r.subdomain);
      assert r in tagged;
    }
  }

  lemma {:induction false} PoliciesSelect(routes: seq<Route>, order: seq<string>, sni: string)
    requires forall t :: t in order ==> t in Tags(routes)
    ensures PolicyTag(Policies(Infos(routes), order) + [Default], sni)
         == if TagFor(routes, sni).Some? && TagFor(routes, sni).value in order then TagFor(routes, sni) else None
  {
    var infos := Infos(routes);
    if order == [] {
      assert Policies(infos, order) + [Default] == [Default];
    } else {
      var rest := order[1..];
      assert order[0] in order && order == [order[0]] + rest;
      ListedUnderOneTag(routes, order[0], sni);
      RestOfPolicies(infos, order);
      PoliciesSelect(routes, rest, sni);
    }
  }

  lemma {:induction false} RestOfPolicies(infos: map<string, CertInfo>, order: seq<string>)
    requires order != [] && forall t :: t in order ==> t in infos
    ensures (Policies(infos, order) + [Default])[1..] == Policies(infos, order[1..]) + [Default]
  {}

  /** The certificate of a tag is that of the first route it stands for, when all
      routes of that subdomain have one. */
  lemma {:induction false} TaggedFirst(routes: seq<Route>, subdomain: string)
    requires subdomain != "" && subdomain != "localhost" && FirstOf(routes, subdomain).Some?
    requires forall r :: r in routes && r.subdomain == subdomain ==> HasCert(r)
    ensures Tagged(routes, subdomain) != [] && Tagged(routes, subdomain)[0] == FirstOf(routes, subdomain).value
  {
    var tagged := (r: Route) => HasCert(r) && Tag(r.subdomain) == subdomain;
    var i :| 0 <= i < |routes| && routes[i] == FirstOf(routes, subdomain).value && routes[i].subdomain == subdomain
             && forall j :: 0 <= j < i ==> routes[j].subdomain != subdomain;
    assert routes[i] in routes && routes[i] in Filter(routes, tagged);
    var k := FilterFirst(routes, tagged);
    assert routes[k].subdomain == subdomain;
    assert k == i;
  }

  /** The policy selected for a server name, and the one certificate carrying
      its tag, do not depend on the iteration order: the certificate is the one
      of the first route with that tag. */
  lemma {:induction false} CertificateMeans(routes: seq<Route>, httpsRedirect: bool, cfg: Config, sni: string)
    requires Compiles(routes, httpsRedirect, cfg)
    ensures PolicyTag(cfg.policies, sni) == TagFor(routes, sni)
    ensures TagFor(routes, sni).Some? ==>
              var tag := TagFor(routes, sni).value;
              && Tagged(routes, tag) != []
              && forall pair :: pair in cfg.pairs && pair.tag == tag <==>
                   pair == CertPair(Tagged(routes, tag)[0].certPath, Tagged(routes, tag)[0].keyPath, tag)
  {
    var order :| Enumerates(order, Tags(routes))
      && cfg.policies == Policies(Infos(routes), order) + [Default] && cfg.pairs == Pairs(Infos(routes), order);
    PoliciesSelect(routes, order, sni);
    if TagFor(routes, sni).Some? {
      var r :| r in routes && HasCert(r) && SubdomainOf(sni) == Some(r.subdomain);
      assert Tag(r.subdomain) in Tags(routes);
      PairOfTag(routes, order, TagFor(routes, sni).value);
    }
  }

  lemma {:induction false} PairOfTag(routes: seq<Route>, order: seq<string>, tag: string)
    requires Enumerates(order, Tags(routes)) && tag in Tags(routes)
    ensures Tagged(routes, tag) != []
    ensures forall pair :: pair in Pairs(Infos(routes), order) && pair.tag == tag <==>
              pair == CertPair(Tagged(routes, tag)[0].certPath, Tagged(routes, tag)[0].keyPath, tag)
  {
    TaggedNonempty(routes, tag);
    var pairs := Pairs(Infos(routes), order);
    assert tag in order;
    var i :| 0 <= i < |order| && order[i] == tag;
    assert pairs[i] in pairs;
    forall pair | pair in pairs && pair.tag == tag
      ensures pair == PairFor(Infos(routes), tag)
    {
      var j :| 0 <= j < |pairs| && pairs[j] == pair;
    }
  }
}
