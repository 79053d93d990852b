/** How the process watcher tells whether a scan differs from the last one, and
    what it announces again after fingerprinting. */
module ChangeDetection {
  import opened Basics
  import opened Discovered

  function PidOf(svc: Service): int { if svc.process.Some? then svc.process.value.pid else 0 }

  function PortOf(svc: Service): Port { svc.endpoint.port }

  predicate AllProcesses(services: seq<Service>) {
    forall s :: s in services ==> s.process.Some?
  }

  predicate DistinctPids(services: seq<Service>) {
    forall i, j :: 0 <= i < j < |services| ==> PidOf(services[i]) != PidOf(services[j])
  }

  /** A process that appears twice does so with different ports. */
  predicate OnePortPerEntry(services: seq<Service>) {
    forall i, j :: 0 <= i < j < |services| && PidOf(services[i]) == PidOf(services[j])
                   ==> PortOf(services[i]) != PortOf(services[j])
  }

  /** The services by process, later ones over earlier ones. */
  function ByPid(services: seq<Service>): map<int, Service> {
    if services == [] then map[]
    else
      var before, s := ByPid(services[..|services| - 1]), services[|services| - 1];
      if s.process.Some? then before[PidOf(s) := s] else before
  }

  function PortMap(current: map<int, Service>): map<int, Port> {
    map pid | pid in current :: PortOf(current[pid])
  }

  class ProcessWatcher {
    var current: map<int, Service>

    constructor ()
      ensures current == map[]
    {
      current := map[];
    }

    method IsServicesChanged(services: seq<Service>) returns (changed: bool)
      ensures !changed <==>
                |services| == |current|
                && forall s :: s in services && s.process.Some? ==>
                     PidOf(s) in current && PortOf(current[PidOf(s)]) == PortOf(s)
    {
      changed := |services| != |current|;
      if !changed {
        for i := 0 to |services|
          invariant forall j :: 0 <= j < i && services[j].process.Some? ==>
                      PidOf(services[j]) in current && PortOf(current[PidOf(services[j])]) == PortOf(services[j])
        {
          var s := services[i];
          if s.process.None? {
            continue;
          }
          var pid := s.process.value.pid;
          if pid !in current || current[pid].endpoint.port != s.endpoint.port {
            assert s in services;
            return true;
          }
        }
      }
    }

    method SetProcesses(services: seq<Service>)
      modifies this
      ensures current == ByPid(services)
    {
      current := map[];
      for i := 0 to |services|
        invariant current == ByPid(services[..i])
      {
        assert services[..i + 1][..i] == services[..i];
        if services[i].process.Some? {
          current := current[services[i].process.value.pid := services[i]];
        }
      }
      assert services[..|services|] == services;
    }

    method GetNewTargets(services: seq<Service>) returns (targets: seq<Endpoint>)
      ensures forall e :: e in targets <==>
                exists s :: s in services && s.process.Some? && PidOf(s) !in current && s.endpoint == e
    {
      targets := [];
      for i := 0 to |services|
        invariant forall e :: e in targets <==>
                    exists j :: 0 <= j < i && services[j].process.Some? && PidOf(services[j]) !in current
                             && services[j].endpoint == e
      {
        var s := services[i];
        if s.process.None? {
          continue;
        }
        if s.process.value.pid !in current {
          targets := targets + [s.endpoint];
        }
      }
      forall s | s in services && s.process.Some? && PidOf(s) !in current ensures s.endpoint in targets {
        var j :| 0 <= j < |services| && services[j] == s;
      }
    }

    /** One tick: a scan that differs is stored and announced, and the endpoints
        of its new processes are to be fingerprinted. */
    method Tick(services: seq<Service>) returns (announced: bool, targets: seq<Endpoint>)
      modifies this
      ensures announced <==> !Unchanged(services, old(current))
      ensures current == if announced then ByPid(services) else old(current)
      ensures forall e :: e in targets <==>
                announced
                && exists s :: s in services && s.process.Some? && PidOf(s) !in old(current) && s.endpoint == e
    {
      announced := IsServicesChanged(services);
      targets := [];
      if announced {
        targets := GetNewTargets(services);
        SetProcesses(services);
      }
    }

    /** Fingerprinting reports back: protocol information is merged into the
        current processes, and all of them are announced again. */
    method MergeDiscovered(infos: map<Endpoint, ServiceInfo>) returns (announced: Option<seq<Service>>)
      modifies this
      ensures current == Merged(old(current), infos)
      ensures announced.Some? <==> exists pid :: pid in old(current) && old(current)[pid].endpoint in infos
      ensures announced.Some? ==>
                exists order :: Enumerates(order, current.Keys) && Announces(announced.value, current, order)
    {
      var before := current;
      var updated := false;
      var rest := current.Keys;
      while rest != {}
        invariant rest <= before.Keys && current.Keys == before.Keys
        invariant forall pid :: pid in before ==>
                    current[pid] == if pid in rest then before[pid] else WithInfo(before[pid], infos)
        invariant updated <==> exists pid :: pid in before && pid !in rest && before[pid].endpoint in infos
      {
        SomeInt(rest);
        var pid :| pid in rest;
        rest := rest - {pid};
        var svc := current[pid];
        if svc.endpoint in infos {
          current := current[pid := svc.(service := Some(infos[svc.endpoint]))];
          updated := true;
        }
      }
      assert current.Keys == Merged(before, infos).Keys;
      assert forall pid :: pid in current ==> current[pid] == Merged(before, infos)[pid];
      assert current == Merged(before, infos);
      if !updated {
        return None;
      }
      var all := AnnounceAll();
      return Some(all);
    }

    method AnnounceAll() returns (all: seq<Service>)
      ensures exists order :: Enumerates(order, current.Keys) && Announces(all, current, order)
    {
      all := [];
      var rest := current.Keys;
      ghost var order := [];
      while rest != {}
        invariant rest <= current.Keys && Enumerates(order, current.Keys - rest)
        invariant Announces(all, current, order)
      {
        SomeInt(rest);
        var pid :| pid in rest;
        rest := rest - {pid};
        order := order + [pid];
        all := all + [current[pid]];
      }
    }
  }

  function WithInfo(svc: Service, infos: map<Endpoint, ServiceInfo>): Service {
    if svc.endpoint in infos then svc.(service := Some(infos[svc.endpoint])) else svc
  }

  function Merged(current: map<int, Service>, infos: map<Endpoint, ServiceInfo>): map<int, Service> {
    map pid | pid in current :: WithInfo(current[pid], infos)
  }

  ghost predicate Announces(all: seq<Service>, current: map<int, Service>, order: seq<int>) {
    && |all| == |order|
    && forall i :: 0 <= i < |order| ==> order[i] in current && all[i] == current[order[i]]
  }

  /** What `IsServicesChanged` computes, as a predicate. */
  predicate Unchanged(services: seq<Service>, current: map<int, Service>) {
    && |services| == |current|
    && forall s :: s in services && s.process.Some? ==>
         PidOf(s) in current && PortOf(current[PidOf(s)]) == PortOf(s)
  }

  function Pids(services: seq<Service>): set<int> {
    set s | s in services :: PidOf(s)
  }

  lemma {:induction false} PidsAppend(services: seq<Service>, s: Service)
    ensures Pids(services + [s]) == Pids(services) + {PidOf(s)}
    ensures DistinctPids(services + [s]) <==> DistinctPids(services) && PidOf(s) !in Pids(services)
  {
    var all := services + [s];
    forall x ensures x in all <==> x in services || x == s {}
    assert s in all;
    forall p | p in Pids(services) ensures p in Pids(all) {
      var x :| x in services && PidOf(x) == p;
      assert x in all;
    }
    if DistinctPids(all) {
      forall i, j | 0 <= i < j < |services| ensures PidOf(services[i]) != PidOf(services[j]) {
        assert all[i] == services[i] && all[j] == services[j];
      }
      forall x | x in services ensures PidOf(x) != PidOf(s) {
        var i :| 0 <= i < |services| && services[i] == x;
        assert all[i] == x && all[|services|] == s;
      }
    }
    if DistinctPids(services) && PidOf(s) !in Pids(services) {
      forall i, j | 0 <= i < j < |all| ensures PidOf(all[i]) != PidOf(all[j]) {
        assert all[i] in services;
      }
    }
  }

  lemma {:induction false} ByPidKeys(services: seq<Service>)
    requires AllProcesses(services)
    ensures ByPid(services).Keys == Pids(services)
    ensures |ByPid(services)| <= |services|
    ensures |ByPid(services)| == |services| <==> DistinctPids(services)
  {
    if services != [] {
      var init, s := services[..|services| - 1], services[|services| - 1];
      assert services == init + [s] && s in services;
      forall x | x in init ensures x.process.Some? { assert x in services; }
      ByPidKeys(init);
      PidsAppend(init, s);
      GrowByOne(ByPid(init), PidOf(s), s);
    }
  }

  lemma {:induction false} GrowByOne(m: map<int, Service>, k: int, v: Service)
    ensures m[k := v].Keys == m.Keys + {k}
    ensures |m[k := v]| == |m| + if k in m then 0 else 1
  {
    if k in m {
      assert m.Keys + {k} == m.Keys;
    }
    assert |m[k := v]| == |m[k := v].Keys| && |m| == |m.Keys|;
  }

  lemma {:induction false} ByPidValue(services: seq<Service>, i: nat)
    requires AllProcesses(services) && DistinctPids(services) && i < |services|
    ensures PidOf(services[i]) in ByPid(services) && ByPid(services)[PidOf(services[i])] == services[i]
  {
    var init, s := services[..|services| - 1], services[|services| - 1];
    assert s in services && forall x :: x in init ==> x in services;
    if i < |init| {
      ByPidValue(init, i);
    }
  }

  lemma {:induction false} SubsetOfSameSize<T(!new)>(a: set<T>, b: set<T>)
    requires a <= b && |a| == |b|
    ensures a == b
  {
    if x :| x in b && x !in a {
      assert a + {x} <= b;
      assert |a + {x}| == |a| + 1;
      SmallerSubset(a + {x}, b);
    }
  }

  lemma {:induction false} SmallerSubset<T>(a: set<T>, b: set<T>)
    requires a <= b
    ensures |a| <= |b|
  {
    if a != {} {
      var x :| x in a;
      SmallerSubset(a - {x}, b - {x});
    }
  }

  /** The cheap comparison is exact: a scan counts as unchanged if and only if
      its processes are distinct and its process-to-port map is the stored one.
      So a scan with a process listed twice always counts as changed. */
  lemma {:induction false} ChangeDetectionExact(services: seq<Service>, current: map<int, Service>)
    requires AllProcesses(services) && OnePortPerEntry(services)
    ensures Unchanged(services, current)
       <==> DistinctPids(services) && PortMap(ByPid(services)) == PortMap(current)
  {
    ByPidKeys(services);
    if Unchanged(services, current) {
      UnchangedMeansEqual(services, current);
    }
    if DistinctPids(services) && PortMap(ByPid(services)) == PortMap(current) {
      EqualMeansUnchanged(services, current);
    }
  }

  lemma {:induction false} EqualMeansUnchanged(services: seq<Service>, current: map<int, Service>)
    requires AllProcesses(services) && OnePortPerEntry(services)
    requires DistinctPids(services) && PortMap(ByPid(services)) == PortMap(current)
    ensures Unchanged(services, current)
  {
    ByPidKeys(services);
    assert ByPid(services).Keys == PortMap(ByPid(services)).Keys == PortMap(current).Keys == current.Keys;
    forall s | s in services ensures PidOf(s) in current && PortOf(current[PidOf(s)]) == PortOf(s) {
      var i :| 0 <= i < |services| && services[i] == s;
      ByPidValue(services, i);
      assert PortMap(ByPid(services))[PidOf(s)] == PortOf(s);
    }
  }

  lemma {:induction false} UnchangedMeansEqual(services: seq<Service>, current: map<int, Service>)
    requires AllProcesses(services) && OnePortPerEntry(services) && Unchanged(services, current)
    ensures DistinctPids(services) && PortMap(ByPid(services)) == PortMap(current)
  {
    ByPidKeys(services);
    forall i, j | 0 <= i < j < |services| ensures PidOf(services[i]) != PidOf(services[j]) {
      assert services[i] in services && services[j] in services;
    }
    forall pid | pid in ByPid(services) ensures pid in current && PortOf(ByPid(services)[pid]) == PortOf(current[pid]) {
      var s :| s in services && PidOf(s) == pid;
      var i :| 0 <= i < |services| && services[i] == s;
      ByPidValue(services, i);
      assert services[i] in services;
    }
    SubsetOfSameSize(ByPid(services).Keys, current.Keys);
  }

  /** Merging fingerprint results never makes the next scan look different. */
  lemma {:induction false} MergeKeepsPorts(services: seq<Service>, current: map<int, Service>,
                                           infos: map<Endpoint, ServiceInfo>)
    ensures PortMap(Merged(current, infos)) == PortMap(current)
    ensures Unchanged(services, Merged(current, infos)) <==> Unchanged(services, current)
  {
    var merged := Merged(current, infos);
    assert merged.Keys == current.Keys;
    forall pid | pid in current ensures PortOf(merged[pid]) == PortOf(current[pid]) {}
    assert PortMap(merged).Keys == PortMap(current).Keys;
    assert |Merged(current, infos)| == |Merged(current, infos).Keys| == |current.Keys| == |current|;
  }

  /** The announcement after fingerprinting names each process once; it leaves
      services of the scan out exactly when the scan listed a process twice. */
  lemma {:induction false} AnnouncementCompleteIff(services: seq<Service>, infos: map<Endpoint, ServiceInfo>,
                                                  all: seq<Service>, order: seq<int>)
    requires AllProcesses(services)
    requires var current := Merged(ByPid(services), infos);
             Enumerates(order, current.Keys) && Announces(all, current, order)
    ensures |all| <= |services|
    ensures |all| == |services| <==> DistinctPids(services)
  {
    var current := Merged(ByPid(services), infos);
    assert current.Keys == ByPid(services).Keys;
    EnumerationLength(order, current.Keys);
    ByPidKeys(services);
  }
}
