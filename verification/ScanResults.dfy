/** What a scan's results are like, whatever the listeners and lookups. */
module ScanResults {
  import opened Basics
  import opened Discovered
  import opened Scan
  import opened ChangeDetection
  import RegistryRuns

  /** Position `k` of the results came from listener `i`. */
  ghost predicate From(plan: Plan, results: seq<Service>, k: int, i: int)
    requires plan.Valid()
  {
    && 0 <= k < |results| && 0 <= i < |plan.listeners|
    && k < |plan.Yielding(|plan.listeners|)| && plan.Yielding(|plan.listeners|)[k] == i
    && results[k] == plan.ServiceAt(i)
    && PidOf(results[k]) == plan.listeners[i].pid
    && results[k].endpoint == plan.listeners[i].endpoint
    && (results[k].source == Process <==> plan.kinds[i].Project?)
    && (results[k].source == WellKnown <==> !plan.kinds[i].Project?)
  }

  lemma {:induction false} Extends(plan: Plan, n: nat, i: nat)
    requires plan.Valid() && 0 < n <= |plan.listeners|
    ensures i in plan.Yielding(n) <==>
              i in plan.Yielding(n - 1) || (i == n - 1 && plan.Yields(n - 1, plan.Yielding(n - 1)))
  {
    var added := if plan.Yields(n - 1, plan.Yielding(n - 1)) then [n - 1] else [];
    assert plan.Yielding(n) == plan.Yielding(n - 1) + added;
  }

  lemma {:induction false} NotYet(plan: Plan, n: nat, i: nat)
    requires plan.Valid() && n <= |plan.listeners| && n <= i
    ensures i !in plan.Yielding(n)
  {}

  /** Membership among the yielding listeners does not change once decided. */
  lemma {:induction false} YieldedWhen(plan: Plan, n: nat, i: nat)
    requires plan.Valid() && i < n <= |plan.listeners|
    ensures i in plan.Yielding(n) <==> plan.Yields(i, plan.Yielding(i))
  {
    Extends(plan, n, i);
    if i < n - 1 {
      YieldedWhen(plan, n - 1, i);
    } else {
      NotYet(plan, i, i);
    }
  }

  lemma {:induction false} YieldedEarlier(plan: Plan, i: nat, j: nat, n: nat)
    requires plan.Valid() && i < j <= n <= |plan.listeners| && i in plan.Yielding(n)
    ensures i in plan.Yielding(j)
  {
    YieldedWhen(plan, n, i);
    YieldedWhen(plan, j, i);
  }

  lemma {:induction false} Origin(plan: Plan, results: seq<Service>, k: nat) returns (i: nat)
    requires plan.Valid() && Found(plan, |plan.listeners|, results) && k < |results|
    ensures From(plan, results, k, i)
    ensures plan.Yields(i, plan.Yielding(i)) && i in plan.Yielding(|plan.listeners|)
  {
    i := plan.Yielding(|plan.listeners|)[k];
    YieldedWhen(plan, |plan.listeners|, i);
  }

  /** Two services of one scan: they come in listener order; the same process
      never gives services of both kinds, nor two of the project kind; and a
      well-known service never has the port of an earlier result. */
  lemma {:induction false} ResultsDistinct(plan: Plan, results: seq<Service>, k: nat, l: nat)
    requires plan.Valid() && Found(plan, |plan.listeners|, results) && k < l < |results|
    ensures exists i, j :: i < j && From(plan, results, k, i) && From(plan, results, l, j)
    ensures PidOf(results[k]) == PidOf(results[l]) ==> results[k].source == results[l].source == WellKnown
    ensures results[l].source == WellKnown ==> PortOf(results[k]) != PortOf(results[l])
  {
    var i := Origin(plan, results, k);
    var j := Origin(plan, results, l);
    var where := plan.Yielding(|plan.listeners|);
    assert where[k] < where[l];
    if PidOf(results[k]) == PidOf(results[l]) {
      SameFirst(plan.listeners, i, j);
    }
    YieldedEarlier(plan, i, j, |plan.listeners|);
  }

  /** Completeness: every project process is found, at its first listener; and
      every well-known port with a listener outside the projects is taken. */
  lemma {:induction false} ResultsComplete(plan: Plan, results: seq<Service>, i: nat)
    requires plan.Valid() && Found(plan, |plan.listeners|, results) && i < |plan.listeners|
    ensures plan.kinds[i].Project? ==> exists k :: From(plan, results, k, plan.First(i))
    ensures plan.kinds[i].Outside? && plan.listeners[i].endpoint.port in WELL_KNOWN_PORTS ==>
              exists k :: 0 <= k < |results| && PortOf(results[k]) == plan.listeners[i].endpoint.port
  {
    var n := |plan.listeners|;
    if plan.kinds[i].Project? {
      var f := plan.First(i);
      SameFirst(plan.listeners, f, i);
      YieldedWhen(plan, n, f);
      var k := PlaceOf(plan.Yielding(n), f);
      assert From(plan, results, k, f);
    } else if plan.kinds[i].Outside? && plan.listeners[i].endpoint.port in WELL_KNOWN_PORTS {
      var j := TakerOf(plan, i);
      var k := PlaceOf(plan.Yielding(n), j);
    }
  }

  lemma {:induction false} TakerOf(plan: Plan, i: nat) returns (j: nat)
    requires plan.Valid() && i < |plan.listeners|
    requires plan.kinds[i].Outside? && plan.listeners[i].endpoint.port in WELL_KNOWN_PORTS
    ensures j < |plan.listeners| && plan.listeners[j].endpoint.port == plan.listeners[i].endpoint.port
    ensures j in plan.Yielding(|plan.listeners|)
  {
    YieldedWhen(plan, |plan.listeners|, i);
    if plan.Yields(i, plan.Yielding(i)) {
      j := i;
    } else {
      j :| j in plan.Yielding(i) && j < |plan.listeners|
        && plan.listeners[j].endpoint.port == plan.listeners[i].endpoint.port;
      var k :| 0 <= k < |plan.Yielding(i)| && plan.Yielding(i)[k] == j;
      YieldedWhen(plan, i, j);
      YieldedWhen(plan, |plan.listeners|, j);
    }
  }

  function BySource(services: seq<Service>, source: Source): seq<Service> {
    Filter(services, (s: Service) => s.source == source)
  }

  method FilterBySource(services: seq<Service>, source: Source) returns (result: seq<Service>)
    ensures result == BySource(services, source)
  {
    result := [];
    for i := 0 to |services|
      invariant result == BySource(services[..i], source)
    {
      assert services[..i + 1][..i] == services[..i];
      if services[i].source == source {
        result := result + [services[i]];
      }
    }
    assert services[..|services|] == services;
  }

  /** The two batches the daemon makes of a scan are such as the registry's
      confluence asks for. */
  lemma {:induction false} ScanFeedsRegistry(plan: Plan, results: seq<Service>)
    requires plan.Valid() && Found(plan, |plan.listeners|, results)
    ensures RegistryRuns.FromWatcher(Process, BySource(results, Process))
    ensures RegistryRuns.FromWatcher(WellKnown, BySource(results, WellKnown))
  {
    forall s | s in BySource(results, WellKnown)
      ensures s.process.Some? && s.process.value.topLevelFolder == "" && !s.process.value.needsCustomMapping
    {
      var k :| 0 <= k < |results| && results[k] == s;
      var i := Origin(plan, results, k);
    }
  }

  lemma {:induction false} ScansQualify(plan: Plan, results: seq<Service>)
    requires plan.Valid() && Found(plan, |plan.listeners|, results)
    ensures AllProcesses(results) && OnePortPerEntry(results)
  {
    forall s | s in results ensures s.process.Some? {
      var k :| 0 <= k < |results| && results[k] == s;
      var i := Origin(plan, results, k);
    }
    forall k, l | 0 <= k < l < |results| && PidOf(results[k]) == PidOf(results[l])
      ensures PortOf(results[k]) != PortOf(results[l])
    {
      ResultsDistinct(plan, results, k, l);
    }
  }

  /** One process outside the projects that listens on two well-known ports. */
  ghost predicate TwoKnownPorts(plan: Plan, pid: int) {
    && plan.Valid() && |plan.listeners| == 2
    && plan.kinds[0].Outside? && plan.kinds[1].Outside?
    && plan.listeners[0].pid == plan.listeners[1].pid == pid
    && plan.listeners[0].endpoint.port in WELL_KNOWN_PORTS && plan.listeners[1].endpoint.port in WELL_KNOWN_PORTS
    && plan.listeners[0].endpoint.port != plan.listeners[1].endpoint.port
  }

  /** Its scan lists it twice, and counts as changed although nothing did. */
  lemma {:induction false} ListedTwiceAlwaysChanged(plan: Plan, pid: int, results: seq<Service>)
    requires TwoKnownPorts(plan, pid) && Found(plan, 2, results)
    ensures |results| == 2 && PidOf(results[0]) == PidOf(results[1]) == pid
    ensures !Unchanged(results, ByPid(results))
  {
    assert plan.Yielding(0) == [];
    assert plan.Yielding(1) == [0];
    assert plan.Yielding(2) == [0, 1];
    ScansQualify(plan, results);
    ChangeDetectionExact(results, ByPid(results));
  }

  /** After fingerprinting, the announcement leaves one of the two services out. */
  lemma {:induction false} ListedTwiceAnnouncedOnce(plan: Plan, pid: int, results: seq<Service>,
                                                    infos: map<Endpoint, ServiceInfo>,
                                                    all: seq<Service>, order: seq<int>)
    requires TwoKnownPorts(plan, pid) && Found(plan, 2, results) && AllProcesses(results)
    requires var current := Merged(ByPid(results), infos);
             Enumerates(order, current.Keys) && Announces(all, current, order)
    ensures |all| < |results|
  {
    ListedTwiceAlwaysChanged(plan, pid, results);
    AnnouncementCompleteIff(results, infos, all, order);
  }
}
