/** The certificate manager: which files a request makes or reuses, over any
    run of requests, failures and restarts. */
module Certificates {

  const ROOT_CA := "rootCA"

  datatype Request = Request(subdomain: string, wildcard: bool) {
    function Key(): string { if wildcard then "wildcard_" + subdomain else subdomain }

    function DnsNames(): seq<string> {
      if subdomain == "localhost" then ["localhost", "proxy.localhost", "proxy.internal"]
      else if wildcard then
        ["*." + subdomain + ".localhost", "*." + subdomain + ".internal",
         subdomain + ".localhost", subdomain + ".internal"]
      else [subdomain + ".localhost", subdomain + ".internal"]
    }
  }

  /** A certificate and its private key share a pair number. `Partial` is what a
      write that fails half way leaves. */
  datatype File = CaCert | CaKey | Cert(names: seq<string>, pair: nat) | PrivateKey(pair: nat) | Partial

  datatype Paths = Paths(certPath: string, keyPath: string)

  function CertFile(key: string): string { key + ".pem" }

  function KeyFile(key: string): string { key + "-key.pem" }

  function PathsOf(key: string): Paths { Paths(CertFile(key), KeyFile(key)) }

  /** `certs`: the cache of this run of the daemon. `files`: the directory. */
  datatype State = State(certs: map<string, Paths>, files: map<string, File>, nextPair: nat)

  /** How far making a new certificate gets. A write fails before it touches the
      file, or after it truncated it. */
  datatype Io = Works | GenerateFails | WriteKeyFails | WriteKeyCutShort | WriteCertFails | WriteCertCutShort

  predicate OnDisk(s: State, key: string) {
    CertFile(key) in s.files && KeyFile(key) in s.files
  }

  predicate Succeeds(s: State, r: Request, io: Io) {
    r.Key() in s.certs || OnDisk(s, r.Key()) || io == Works
  }

  function Ensured(s: State, r: Request, io: Io): State {
    var key := r.Key();
    if key in s.certs then s
    else if OnDisk(s, key) then s.(certs := s.certs[key := PathsOf(key)])
    else match io
      case GenerateFails => s
      case WriteKeyFails => s.(nextPair := s.nextPair + 1)
      case WriteKeyCutShort => State(s.certs, s.files[KeyFile(key) := Partial], s.nextPair + 1)
      case WriteCertFails =>
        State(s.certs, s.files[KeyFile(key) := PrivateKey(s.nextPair)], s.nextPair + 1)
      case WriteCertCutShort =>
        State(s.certs, s.files[KeyFile(key) := PrivateKey(s.nextPair)][CertFile(key) := Partial], s.nextPair + 1)
      case Works =>
        State(s.certs[key := PathsOf(key)],
              s.files[KeyFile(key) := PrivateKey(s.nextPair)][CertFile(key) := Cert(r.DnsNames(), s.nextPair)],
              s.nextPair + 1)
  }

  class CertManager {
    var certs: map<string, Paths>
    var files: map<string, File>
    var nextPair: nat

    constructor ()
      ensures View() == FRESH
    {
      certs := map[];
      files := map[CertFile(ROOT_CA) := CaCert, KeyFile(ROOT_CA) := CaKey];
      nextPair := 0;
    }

    ghost function View(): State
      reads this
    { State(certs, files, nextPair) }

    method EnsureCertInternal(r: Request, io: Io) returns (ok: bool)
      modifies this
      ensures View() == Ensured(old(View()), r, io)
      ensures ok == Succeeds(old(View()), r, io)
      ensures ok <==> r.Key() in certs
    {
      var cacheKey := r.Key();
      if cacheKey in certs {
        return true;
      }
      var certPath, keyPath := CertFile(cacheKey), KeyFile(cacheKey);
      if certPath in files {
        if keyPath in files {
          certs := certs[cacheKey := Paths(certPath, keyPath)];
          return true;
        }
      }
      if io == GenerateFails {
        return false;
      }
      var pair := nextPair;
      nextPair := nextPair + 1;
      if io == WriteKeyFails {
        return false;
      }
      if io == WriteKeyCutShort {
        files := files[keyPath := Partial];
        return false;
      }
      files := files[keyPath := PrivateKey(pair)];
      if io == WriteCertFails {
        return false;
      }
      if io == WriteCertCutShort {
        files := files[certPath := Partial];
        return false;
      }
      files := files[certPath := Cert(r.DnsNames(), pair)];
      certs := certs[cacheKey := Paths(certPath, keyPath)];
      return true;
    }

    /** `GetCert` and `GetWildcardCert`: empty paths when never ensured. */
    method GetPaths(r: Request) returns (paths: Paths)
      ensures paths == if r.Key() in certs then certs[r.Key()] else Paths("", "")
    {
      if r.Key() in certs {
        return certs[r.Key()];
      }
      return Paths("", "");
    }
  }

  // ---- Runs -----------------------------------------------------------------------------

  const FRESH := State(map[], map[CertFile(ROOT_CA) := CaCert, KeyFile(ROOT_CA) := CaKey], 0)

  datatype Event = Ensure(request: Request, io: Io) | Restart

  function Step(s: State, e: Event): State {
    match e
    case Ensure(r, io) => Ensured(s, r, io)
    case Restart => s.(certs := map[])
  }

  function Run(events: seq<Event>): State {
    if events == [] then FRESH
    else Step(Run(events[..|events| - 1]), events[|events| - 1])
  }

  function Requests(events: seq<Event>): set<Request> {
    set e | e in events && e.Ensure? :: e.request
  }

  /** The request's own certificate is in place, with its own private key. */
  ghost predicate Intact(s: State, r: Request) {
    && r.Key() in s.certs && s.certs[r.Key()] == PathsOf(r.Key())
    && MatchedPair(s, r)
  }

  ghost predicate MatchedPair(s: State, r: Request) {
    && OnDisk(s, r.Key())
    && exists pair :: s.files[CertFile(r.Key())] == Cert(r.DnsNames(), pair)
                   && s.files[KeyFile(r.Key())] == PrivateKey(pair)
  }

  predicate CaIntact(s: State) {
    && CertFile(ROOT_CA) in s.files && s.files[CertFile(ROOT_CA)] == CaCert
    && KeyFile(ROOT_CA) in s.files && s.files[KeyFile(ROOT_CA)] == CaKey
  }

  /** No two requests share a file, and none takes a file of the root CA: no key
      is another key with "-key" appended, none is "rootCA" or "rootCA-key",
      and no plain name spells a wildcard request. */
  ghost predicate Compatible(requests: set<Request>) {
    && (forall r :: r in requests ==> r.Key() != ROOT_CA && r.Key() != ROOT_CA + "-key")
    && (forall r, q :: r in requests && q in requests ==> r.Key() != q.Key() + "-key")
    && (forall r, q :: r in requests && q in requests && r.Key() == q.Key() ==> r == q)
  }

  // ---- File names -----------------------------------------------------------------------

  lemma {:induction false} FileNames(k: string, m: string)
    ensures CertFile(k) == CertFile(m) <==> k == m
    ensures KeyFile(k) == KeyFile(m) <==> k == m
    ensures CertFile(k) == KeyFile(m) <==> k == m + "-key"
  {
    assert CertFile(k)[..|k|] == k && CertFile(m)[..|m|] == m;
    assert KeyFile(k)[..|k|] == k && KeyFile(m)[..|m|] == m;
    assert KeyFile(m) == CertFile(m + "-key");
    assert CertFile(m + "-key")[..|m + "-key"|] == m + "-key";
  }

  lemma {:induction false} RootCaIsNoKeyFile(k: string)
    ensures KeyFile(k) != CertFile(ROOT_CA)
  {
    FileNames(ROOT_CA, k);
    assert ROOT_CA[|ROOT_CA| - 1] == 'A' && (k + "-key")[|k| + 3] == 'y';
  }

  lemma {:induction false} SameKeyOtherNames(r: Request, q: Request)
    requires r.Key() == q.Key() && r.DnsNames() == q.DnsNames()
    ensures r == q
  {
    FirstNameStart(r);
    FirstNameStart(q);
    if r.wildcard && q.wildcard {
      assert r.Key()[9..] == r.subdomain && q.Key()[9..] == q.subdomain;
    }
  }

  /** A plain request whose key could be a wildcard's starts its names with 'w'. */
  lemma {:induction false} FirstNameStart(r: Request)
    ensures r.DnsNames()[0] != ""
    ensures r.wildcard ==> r.DnsNames()[0][0] == 'l' || r.DnsNames()[0][0] == '*'
    ensures r.wildcard ==> r.Key()[0] == 'w'
    ensures !r.wildcard && r.Key() != "" && r.Key()[0] == 'w' ==> r.DnsNames()[0][0] == 'w'
  {}

  // ---- Exactly when the files stay intact ---------------------------------------------------

  /** The event makes a certificate for `r` and fails half way through writing it. */
  predicate Spoils(s: State, e: Event, r: Request) {
    e == Ensure(r, WriteCertCutShort) && r.Key() !in s.certs && !OnDisk(s, r.Key())
  }

  ghost predicate Spoiled(events: seq<Event>, r: Request) {
    events != []
    && (Spoiled(events[..|events| - 1], r) || Spoils(Run(events[..|events| - 1]), events[|events| - 1], r))
  }

  /** Invariant of compatible runs: a certificate on disk is whole, or what a
      half-finished write left, for good; and a cached key points at one. */
  ghost predicate Kept(s: State, r: Request, spoiled: bool) {
    && (spoiled ==> OnDisk(s, r.Key()) && s.files[CertFile(r.Key())] == Partial)
    && (!spoiled && CertFile(r.Key()) in s.files ==> MatchedPair(s, r))
    && (r.Key() in s.certs ==> s.certs[r.Key()] == PathsOf(r.Key()) && CertFile(r.Key()) in s.files)
  }

  lemma {:induction false} OwnStepKept(s: State, e: Event, r: Request, spoiled: bool)
    requires Kept(s, r, spoiled) && e.Ensure? && e.request == r
    ensures Kept(Step(s, e), r, spoiled || Spoils(s, e, r))
  {
    assert |r.Key()| < |r.Key() + "-key"|;
    FileNames(r.Key(), r.Key());
  }

  lemma {:induction false} OtherStepKept(s: State, e: Event, requests: set<Request>, r: Request, spoiled: bool)
    requires Compatible(requests) && r in requests && Kept(s, r, spoiled)
    requires e.Ensure? ==> e.request in requests && e.request != r
    ensures Kept(Step(s, e), r, spoiled)
  {
    if e.Ensure? {
      var q, t := e.request, Step(s, e);
      FileNames(r.Key(), q.Key());
      FileNames(q.Key(), r.Key());
      assert r.Key() != q.Key();
      assert CertFile(r.Key()) in t.files <==> CertFile(r.Key()) in s.files;
      if CertFile(r.Key()) in s.files {
        assert t.files[CertFile(r.Key())] == s.files[CertFile(r.Key())];
        assert t.files[KeyFile(r.Key())] == s.files[KeyFile(r.Key())];
      }
    }
  }

  /** What is cached for a key are always the paths of that key. */
  lemma {:induction false} CachedPaths(events: seq<Event>, key: string)
    requires key in Run(events).certs
    ensures Run(events).certs[key] == PathsOf(key)
  {
    var init := events[..|events| - 1];
    if key in Run(init).certs && events[|events| - 1].Ensure? {
      CachedPaths(init, key);
    }
  }

  lemma {:induction false} StepKeepsCa(s: State, e: Event, requests: set<Request>)
    requires Compatible(requests) && CaIntact(s) && (e.Ensure? ==> e.request in requests)
    ensures CaIntact(Step(s, e))
  {
    if e.Ensure? {
      FileNames(e.request.Key(), ROOT_CA);
      RootCaIsNoKeyFile(e.request.Key());
    }
  }

  lemma {:induction false} CompatibleRunKept(events: seq<Event>, requests: set<Request>)
    requires Compatible(requests) && Requests(events) <= requests
    ensures CaIntact(Run(events))
    ensures forall r :: r in requests ==> Kept(Run(events), r, Spoiled(events, r))
  {
    if events == [] {
      forall r | r in requests ensures Kept(FRESH, r, false) {
        FileNames(r.Key(), ROOT_CA);
      }
    } else {
      var init, e := events[..|events| - 1], events[|events| - 1];
      assert events == init + [e] && e in events;
      assert Requests(init) <= Requests(events) by {
        forall x | x in init ensures x in events {}
      }
      CompatibleRunKept(init, requests);
      StepKeepsCa(Run(init), e, requests);
      forall r | r in requests ensures Kept(Run(events), r, Spoiled(events, r)) {
        if e.Ensure? && e.request == r {
          OwnStepKept(Run(init), e, r, Spoiled(init, r));
        } else {
          OtherStepKept(Run(init), e, requests, r, Spoiled(init, r));
        }
      }
    }
  }

  /** In compatible runs, whatever fails and however often the daemon restarts, a
      cached certificate is whole if and only if no write of it was ever cut
      short: what such a write leaves is taken for a certificate from then on. */
  lemma {:induction false} CachedIntactIff(events: seq<Event>, r: Request)
    requires Compatible(Requests(events)) && r in Requests(events) && r.Key() in Run(events).certs
    ensures Intact(Run(events), r) <==> !Spoiled(events, r)
  {
    CompatibleRunKept(events, Requests(events));
    assert Kept(Run(events), r, Spoiled(events, r));
  }

  lemma {:induction false} IntactMeansCompatible(s: State, requests: set<Request>)
    requires CaIntact(s) && forall r :: r in requests ==> Intact(s, r)
    ensures Compatible(requests)
  {
    forall r | r in requests ensures r.Key() != ROOT_CA && r.Key() != ROOT_CA + "-key" {
      FileNames(r.Key(), ROOT_CA);
      assert Intact(s, r);
    }
    forall r, q | r in requests && q in requests
      ensures r.Key() != q.Key() + "-key" && (r.Key() == q.Key() ==> r == q)
    {
      FileNames(r.Key(), q.Key());
      assert Intact(s, r) && Intact(s, q);
      if r.Key() == q.Key() {
        SameKeyOtherNames(r, q);
      }
    }
  }

  /** After any run in which every request got its certificate in the end, all
      of them and the root CA are intact exactly when the requests are
      compatible and no write of a certificate was cut short. */
  lemma {:induction false} CertificatesIntactIff(events: seq<Event>)
    requires forall r :: r in Requests(events) ==> r.Key() in Run(events).certs
    ensures CaIntact(Run(events)) && (forall r :: r in Requests(events) ==> Intact(Run(events), r))
       <==> Compatible(Requests(events)) && forall r :: r in Requests(events) ==> !Spoiled(events, r)
  {
    if CaIntact(Run(events)) && forall r :: r in Requests(events) ==> Intact(Run(events), r) {
      IntactMeansCompatible(Run(events), Requests(events));
    }
    if Compatible(Requests(events)) {
      CompatibleRunKept(events, Requests(events));
      forall r | r in Requests(events) ensures Intact(Run(events), r) <==> !Spoiled(events, r) {
        CachedIntactIff(events, r);
      }
    }
  }

  // ---- Runs that go wrong ---------------------------------------------------------------

  lemma {:induction false} RunOfTwo(e: Event, f: Event)
    ensures Run([e]) == Step(FRESH, e) && Run([e, f]) == Step(Step(FRESH, e), f)
  {
    assert [e, f][..1] == [e] && [e][..0] == [];
  }

  /** A certificate for "api-key" overwrites the private key of "api". */
  lemma {:induction false} KeyOverwritten()
    ensures var api, other := Request("api", false), Request("api-key", false);
            var s := Run([Ensure(api, Works), Ensure(other, Works)]);
            && api.Key() in s.certs && other.Key() in s.certs
            && KeyFile(api.Key()) in s.files && s.files[KeyFile(api.Key())] == Cert(other.DnsNames(), 1)
            && !Intact(s, api)
  {
    var api, other := Request("api", false), Request("api-key", false);
    RunOfTwo(Ensure(api, Works), Ensure(other, Works));
    FileNames("api-key", "api");
    FileNames("api", "api-key");
    FileNames("api", ROOT_CA);
    FileNames("api-key", ROOT_CA);
    assert KeyFile("api") == CertFile("api-key");
    assert "api" != "api-key" + "-key" && "api" != "api-key";
  }

  /** So does one for "rootCA-key" with the private key of the root CA. */
  lemma {:induction false} CaKeyOverwritten()
    ensures var q := Request("rootCA-key", false);
            var s := Run([Ensure(q, Works)]);
            KeyFile(ROOT_CA) in s.files && s.files[KeyFile(ROOT_CA)] == Cert(q.DnsNames(), 0)
  {
    var q := Request("rootCA-key", false);
    RunOfTwo(Ensure(q, Works), Ensure(q, Works));
    FileNames("rootCA-key", ROOT_CA);
    FileNames(ROOT_CA, ROOT_CA);
    assert CertFile("rootCA-key") == KeyFile(ROOT_CA);
    assert "rootCA-key" != ROOT_CA;
    RootCaIsNoKeyFile(ROOT_CA);
    assert |"rootCA-key"| < |"rootCA-key" + "-key"|;
    FileNames("rootCA-key", "rootCA-key");
  }

  /** A request for "rootCA" leaves every file as it is and is met with the root
      CA's own certificate and private key. */
  lemma {:induction false} CaTakenForCertificate(io: Io)
    ensures var s := Run([Ensure(Request(ROOT_CA, false), io)]);
            && s.files == FRESH.files && s.certs == map[ROOT_CA := PathsOf(ROOT_CA)]
            && s.files[PathsOf(ROOT_CA).certPath] == CaCert && s.files[PathsOf(ROOT_CA).keyPath] == CaKey
  {
    var e := Ensure(Request(ROOT_CA, false), io);
    RunOfTwo(e, e);
    FileNames(ROOT_CA, ROOT_CA);
    RootCaIsNoKeyFile(ROOT_CA);
  }

  /** The disk is full while the certificate is written; the next request takes
      the piece for a certificate. */
  lemma {:induction false} PieceTakenForCertificate(r: Request)
    requires r.Key() != ROOT_CA && r.Key() != ROOT_CA + "-key"
    ensures var s := Run([Ensure(r, WriteCertCutShort), Ensure(r, Works)]);
            && r.Key() in s.certs && s.certs[r.Key()] == PathsOf(r.Key())
            && CertFile(r.Key()) in s.files && s.files[CertFile(r.Key())] == Partial
  {
    RunOfTwo(Ensure(r, WriteCertCutShort), Ensure(r, Works));
    FileNames(r.Key(), ROOT_CA);
    FileNames(r.Key(), r.Key());
    assert |r.Key()| < |r.Key() + "-key"|;
  }
}
