/** From published routes to served ones: which certificate each route gets,
    and exactly when that certificate covers the route's host names. */
module Coverage {
  import opened Text
  import opened Discovered
  import Certificates
  import HttpConfig

  // ---- Left-most label wildcards (section 6.4.3 of RFC 6125) ------------------------------

  predicate NameCovers(name: string, host: string) {
    || name == host
    || (&& |name| >= 2 && name[..2] == "*."
        && var i := Index(host, '.');
           0 < i < |host| && host[i + 1..] == name[2..])
  }

  predicate Covers(names: seq<string>, host: string) {
    exists n | n in names :: NameCovers(n, host)
  }

  const LOCALHOST := HttpConfig.LOCALHOST
  const INTERNAL := HttpConfig.INTERNAL

  predicate IsDomain(suffix: string) { suffix == LOCALHOST || suffix == INTERNAL }

  /** `subdomain` is one non-empty label, a dot, and `parent`. */
  predicate OneLabelUnder(subdomain: string, parent: string) {
    var i := Index(subdomain, '.');
    0 < i < |subdomain| && subdomain[i + 1..] == parent
  }

  /** Only whole-name matches count for a name that is no wildcard. */
  lemma {:induction false} PlainNameCovers(name: string, host: string)
    requires name != "" && name[0] != '*'
    ensures NameCovers(name, host) <==> name == host
  {}

  lemma {:induction false} IndexBeforeSuffix(s: string, suffix: string)
    requires suffix != "" && suffix[0] == '.'
    ensures Index(s + suffix, '.') == Index(s, '.')
  {
    var i, j := Index(s + suffix, '.'), Index(s, '.');
    assert (s + suffix)[j] == '.';
  }

  /** The wildcard for `parent` covers `subdomain` one label up, no further. */
  lemma {:induction false} WildcardCovers(subdomain: string, parent: string, suffix: string)
    requires |suffix| > 1 && suffix[0] == '.' && '.' !in suffix[1..]
    ensures NameCovers("*." + parent + suffix, subdomain + suffix) <==> OneLabelUnder(subdomain, parent)
  {
    var name, host := "*." + parent + suffix, subdomain + suffix;
    var i := Index(subdomain, '.');
    IndexBeforeSuffix(subdomain, suffix);
    assert name[..2] == "*." && name[2..] == parent + suffix;
    SuffixEqual(subdomain, "*." + parent, suffix);
    if i < |subdomain| {
      assert host[i + 1..] == subdomain[i + 1..] + suffix;
      SuffixEqual(subdomain[i + 1..], parent, suffix);
    } else {
      assert host[i + 1..] == suffix[1..] && |suffix[1..]| < |parent + suffix|;
    }
  }

  lemma {:induction false} SuffixEqual(s: string, t: string, suffix: string)
    ensures s + suffix == t + suffix <==> s == t
  {
    SuffixAppended(s, suffix);
    SuffixAppended(t, suffix);
  }

  lemma {:induction false} SameTail(s: string, t: string, i: nat, j: nat)
    requires i < |s| && j < |t| && s[i..] == t[j..]
    ensures s[|s| - 1] == t[|t| - 1]
  {
    assert s[i..][|s| - i - 1] == t[j..][|t| - j - 1];
  }

  lemma {:induction false} OtherDomain(name: string, domain: string, host: string, suffix: string)
    requires IsDomain(domain) && IsDomain(suffix) && domain != suffix
    requires HasSuffix(name, domain) && HasSuffix(host, suffix)
    ensures !NameCovers(name, host)
  {
    SameTail(name, domain, |name| - |domain|, 0);
    SameTail(host, suffix, |host| - |suffix|, 0);
    assert INTERNAL[|INTERNAL| - 1] == 'l' && LOCALHOST[|LOCALHOST| - 1] == 't';
    CoveredTail(name, host);
  }

  lemma {:induction false} CoveredTail(name: string, host: string)
    requires |name| > 2 && |host| > 2
    ensures NameCovers(name, host) ==> name[|name| - 1] == host[|host| - 1]
  {
    var i := Index(host, '.');
    if i < |host| && host[i + 1..] == name[2..] {
      SameTail(host, name, i + 1, 2);
    }
  }

  // ---- Which certificate a route gets ---------------------------------------------------------

  /** The certificate that the daemon asks for on behalf of a route. */
  function CertRequest(r: Route): Certificates.Request {
    var certKey := if r.subdomain == "" then "localhost" else r.subdomain;
    if r.hasWildcard then Certificates.Request(certKey, true)
    else if r.folderGroup != "" then Certificates.Request(r.folderGroup, true)
    else Certificates.Request(certKey, false)
  }

  /** When the names of that certificate cover both host names of the route. */
  predicate Coverable(r: Route) {
    if r.hasWildcard || r.folderGroup == "" then r.subdomain != "localhost"
    else if r.folderGroup == "localhost" then r.subdomain == "proxy"
    else CoveredBy(r.subdomain, r.folderGroup)
  }

  /** The wildcard certificate of `parent` covers the parent, one label under it,
      and what the parent matches if it is itself spelled as a wildcard. */
  predicate CoveredBy(subdomain: string, parent: string) {
    subdomain == parent || OneLabelUnder(subdomain, parent) || SpelledAsWildcard(subdomain, parent)
  }

  predicate SpelledAsWildcard(subdomain: string, parent: string) {
    || (parent == "*" && subdomain != "" && '.' !in subdomain)
    || (|parent| >= 2 && parent[..2] == "*." && OneLabelUnder(subdomain, parent[2..]))
  }

  lemma {:induction false} LocalhostNamesCover(subdomain: string, suffix: string)
    requires subdomain != "" && IsDomain(suffix)
    ensures Covers(["localhost", "proxy.localhost", "proxy.internal"], subdomain + suffix) <==> subdomain == "proxy"
  {
    LocalhostNamesMatch(subdomain, suffix);
    ThreeNames("localhost", "proxy.localhost", "proxy.internal", subdomain + suffix);
  }

  lemma {:induction false} ThreeNames(a: string, b: string, c: string, host: string)
    ensures Covers([a, b, c], host) <==> NameCovers(a, host) || NameCovers(b, host) || NameCovers(c, host)
  {
    var names := [a, b, c];
    assert names[0] in names && names[1] in names && names[2] in names;
  }

  lemma {:induction false} LocalhostNamesMatch(subdomain: string, suffix: string)
    requires subdomain != "" && IsDomain(suffix)
    ensures !NameCovers("localhost", subdomain + suffix)
    ensures NameCovers("proxy.localhost", subdomain + suffix) <==> subdomain == "proxy" && suffix == LOCALHOST
    ensures NameCovers("proxy.internal", subdomain + suffix) <==> subdomain == "proxy" && suffix == INTERNAL
  {
    SuffixAppended(subdomain, suffix);
    HttpConfig.RootHosts();
    assert "proxy" + LOCALHOST == "proxy.localhost" && "proxy" + INTERNAL == "proxy.internal";
    SuffixEqual(subdomain, "proxy", suffix);
    SuffixAppended("proxy", LOCALHOST);
    SuffixAppended("proxy", INTERNAL);
    PlainNameCovers("localhost", subdomain + suffix);
    PlainNameCovers("proxy.localhost", subdomain + suffix);
    PlainNameCovers("proxy.internal", subdomain + suffix);
    if suffix == LOCALHOST {
      OtherDomain("proxy.internal", INTERNAL, subdomain + suffix, suffix);
    } else {
      OtherDomain("proxy.localhost", LOCALHOST, subdomain + suffix, suffix);
    }
  }

  lemma {:induction false} WildcardNamesCover(subdomain: string, parent: string, suffix: string)
    requires parent != "localhost" && IsDomain(suffix)
    ensures Covers(Certificates.Request(parent, true).DnsNames(), subdomain + suffix) <==> CoveredBy(subdomain, parent)
  {
    var names := Certificates.Request(parent, true).DnsNames();
    var other := if suffix == LOCALHOST then INTERNAL else LOCALHOST;
    assert names == ["*." + parent + LOCALHOST, "*." + parent + INTERNAL, parent + LOCALHOST, parent + INTERNAL];
    FourNames(names, subdomain + suffix);
    WildcardCovers(subdomain, parent, suffix);
    ParentCovers(subdomain, parent, suffix);
    OtherNamesMiss(subdomain, parent, suffix, other);
  }

  lemma {:induction false} OtherNamesMiss(subdomain: string, parent: string, suffix: string, other: string)
    requires IsDomain(suffix) && IsDomain(other) && suffix != other
    ensures !NameCovers("*." + parent + other, subdomain + suffix) && !NameCovers(parent + other, subdomain + suffix)
  {
    SuffixAppended(subdomain, suffix);
    SuffixAppended("*." + parent, other);
    SuffixAppended(parent, other);
    OtherDomain("*." + parent + other, other, subdomain + suffix, suffix);
    OtherDomain(parent + other, other, subdomain + suffix, suffix);
  }

  lemma {:induction false} FourNames(names: seq<string>, host: string)
    requires |names| == 4
    ensures Covers(names, host) <==>
              NameCovers(names[0], host) || NameCovers(names[1], host)
              || NameCovers(names[2], host) || NameCovers(names[3], host)
  {
    assert names[0] in names && names[1] in names && names[2] in names && names[3] in names;
  }

  lemma {:induction false} ParentCovers(subdomain: string, parent: string, suffix: string)
    requires |suffix| > 1 && suffix[0] == '.' && '.' !in suffix[1..]
    ensures NameCovers(parent + suffix, subdomain + suffix) <==>
              subdomain == parent || SpelledAsWildcard(subdomain, parent)
  {
    SuffixEqual(subdomain, parent, suffix);
    var name, host := parent + suffix, subdomain + suffix;
    if |parent| >= 2 {
      assert name[..2] == parent[..2];
      if parent[..2] == "*." {
        assert "*." + parent[2..] + suffix == name;
        WildcardCovers(subdomain, parent[2..], suffix);
      }
    } else {
      ShortParent(parent, subdomain, suffix);
    }
  }

  lemma {:induction false} ShortParent(parent: string, subdomain: string, suffix: string)
    requires |parent| < 2 && |suffix| > 1 && suffix[0] == '.' && '.' !in suffix[1..]
    ensures NameCovers(parent + suffix, subdomain + suffix) <==>
              subdomain == parent || SpelledAsWildcard(subdomain, parent)
  {
    var name, host := parent + suffix, subdomain + suffix;
    SuffixEqual(subdomain, parent, suffix);
    var i := Index(host, '.');
    IndexBeforeSuffix(subdomain, suffix);
    if parent == "*" {
      assert name[..2] == "*." && name[2..] == suffix[1..];
      if i < |subdomain| {
        assert host[i + 1..] == subdomain[i + 1..] + suffix && subdomain[i] in subdomain;
      } else {
        assert host[i + 1..] == suffix[1..];
      }
    } else if |parent| == 1 {
      assert name[..2][0] == parent[0] && name[..2] != "*.";
    } else {
      assert name[0] == '.';
    }
  }

  /** For a named route, the certificate asked for covers each of the route's host
      names exactly when the route is coverable. */
  lemma {:induction false} RouteCoveredIff(r: Route, host: string)
    requires r.subdomain != "" && host in HttpConfig.Hosts(r.subdomain)
    ensures Covers(CertRequest(r).DnsNames(), host) <==> Coverable(r)
  {
    var q := CertRequest(r);
    var suffix := if host == r.subdomain + LOCALHOST then LOCALHOST else INTERNAL;
    assert host == r.subdomain + suffix;
    if q.subdomain == "localhost" {
      LocalhostNamesCover(r.subdomain, suffix);
    } else if q.wildcard {
      WildcardNamesCover(r.subdomain, q.subdomain, suffix);
    } else {
      assert q.DnsNames()[0] in q.DnsNames() && q.DnsNames()[1] in q.DnsNames();
      assert NameCovers(host, host);
    }
  }

  /** The dashboard's certificate covers "localhost" but not "internal", although
      the dashboard is served under both names. */
  lemma {:induction false} RootCertificateMissesInternal(r: Route)
    requires r.subdomain == "" && !r.hasWildcard && r.folderGroup == ""
    ensures Covers(CertRequest(r).DnsNames(), "localhost")
    ensures "internal" in HttpConfig.Hosts(r.subdomain) && !Covers(CertRequest(r).DnsNames(), "internal")
  {
    var names := CertRequest(r).DnsNames();
    assert names[0] in names && NameCovers("localhost", "localhost");
    forall n | n in names ensures !NameCovers(n, "internal") {
      PlainNameCovers(n, "internal");
      assert "internal"[0] == 'i';
    }
  }
}
