/** One scan of the listening sockets: classification with a directory cache,
    one service per process, one per well-known port. */
module Scan {
  import opened Basics
  import opened Discovered
  import opened Paths

  datatype Listener = Listener(endpoint: Endpoint, pid: int)

  /** A scan's input. `answers[i]` is what a directory lookup for the process of
      listener `i` would answer at that moment, `None` when it fails. */
  datatype Input = Input(basePaths: seq<Path>, listeners: seq<Listener>, answers: seq<Option<Path>>) {
    ghost predicate Valid() { |answers| == |listeners| }

    /** What each process is taken for throughout the scan: the directory is
        looked up once, at the first listener of the process. */
    ghost function Plan(): (p: Plan)
      requires Valid()
      ensures p.listeners == listeners && |p.kinds| == |listeners|
      ensures forall i :: 0 <= i < |listeners| ==> p.kinds[i] == KindOf(basePaths, answers[FirstOf(listeners, i)])
    {
      Planned(listeners, seq(|listeners|, i requires 0 <= i < |listeners| =>
        KindOf(basePaths, answers[FirstOf(listeners, i)])))
    }

    lemma {:induction false} PlanValid()
      requires Valid()
      ensures Plan().Valid()
    {
      forall i, j | 0 <= i < j < |listeners| && listeners[i].pid == listeners[j].pid
        ensures Plan().kinds[i] == Plan().kinds[j]
      {
        SameFirst(listeners, i, j);
      }
    }
  }

  /** The first listener of the process of listener `i`. */
  function FirstOf(listeners: seq<Listener>, i: nat): (f: nat)
    requires i < |listeners|
    ensures f <= i && listeners[f].pid == listeners[i].pid
  {
    FirstFrom(listeners, i, 0)
  }

  function FirstFrom(listeners: seq<Listener>, i: nat, from: nat): (f: nat)
    requires from <= i < |listeners|
    ensures from <= f <= i && listeners[f].pid == listeners[i].pid
    decreases i - from
  {
    if listeners[from].pid == listeners[i].pid then from else FirstFrom(listeners, i, from + 1)
  }

  lemma {:induction false} NoneBefore(listeners: seq<Listener>, i: nat, from: nat, j: nat)
    requires from <= i < |listeners| && from <= j < FirstFrom(listeners, i, from)
    ensures listeners[j].pid != listeners[i].pid
    decreases i - from
  {
    if from < j {
      NoneBefore(listeners, i, from + 1, j);
    }
  }

  lemma {:induction false} SameFirst(listeners: seq<Listener>, i: nat, j: nat)
    requires i < |listeners| && j < |listeners| && listeners[i].pid == listeners[j].pid
    ensures FirstOf(listeners, i) == FirstOf(listeners, j)
  {
    if FirstOf(listeners, i) < FirstOf(listeners, j) {
      NoneBefore(listeners, j, 0, FirstOf(listeners, i));
    } else if FirstOf(listeners, j) < FirstOf(listeners, i) {
      NoneBefore(listeners, i, 0, FirstOf(listeners, j));
    }
  }

  /** The listeners of a scan and what their processes are taken for. */
  datatype Plan = Planned(listeners: seq<Listener>, kinds: seq<Kind>) {
    ghost predicate Valid() {
      && |kinds| == |listeners|
      && forall i, j :: 0 <= i < j < |listeners| && listeners[i].pid == listeners[j].pid ==> kinds[i] == kinds[j]
    }

    function First(i: nat): (f: nat)
      requires i < |listeners|
    { FirstOf(listeners, i) }

    ghost predicate PortTaken(earlier: seq<nat>, port: Port) {
      exists j | j in earlier :: j < |listeners| && listeners[j].endpoint.port == port
    }

    /** Listener `i` yields a service: the first listener of a project process
        does; a listener outside the projects does if its port is well known
        and no listener that yielded one earlier has that port. */
    ghost predicate Yields(i: nat, earlier: seq<nat>)
      requires Valid() && i < |listeners|
    {
      match kinds[i]
      case Ignored => false
      case Project(_, _) => First(i) == i
      case Outside =>
        listeners[i].endpoint.port in WELL_KNOWN_PORTS && !PortTaken(earlier, listeners[i].endpoint.port)
    }

    ghost function ServiceAt(i: nat): Service
      requires Valid() && i < |listeners|
    {
      match kinds[i]
      case Project(cwd, info) => ProjectService(listeners[i], cwd, info)
      case _ => WellKnownService(listeners[i])
    }

    /** The listeners among the first `n` that yield a service, in order. */
    ghost function Yielding(n: nat): (r: seq<nat>)
      requires Valid() && n <= |listeners|
      ensures forall a :: 0 <= a < |r| ==> r[a] < n
      ensures forall a, b :: 0 <= a < b < |r| ==> r[a] < r[b]
    {
      if n == 0 then []
      else Yielding(n - 1) + if Yields(n - 1, Yielding(n - 1)) then [n - 1] else []
    }
  }

  datatype Kind = Outside | Ignored | Project(cwd: Path, info: PathInfo)

  function KindOf(basePaths: seq<Path>, cwd: Option<Path>): Kind {
    if cwd.None? || FindBase(basePaths, cwd.value).None? then Outside
    else
      var info := ResolvePathInfo(FindBase(basePaths, cwd.value).value, cwd.value);
      if info.topLevelFolder == "" then Ignored else Project(cwd.value, info)
  }

  function RelativeText(parts: Path): string {
    if parts == [] then "" else if |parts| == 1 then parts[0] else parts[0] + "/" + RelativeText(parts[1..])
  }

  function ProjectService(l: Listener, cwd: Path, info: PathInfo): Service {
    Service("", l.endpoint, 0, Process,
            Some(ProcessInfo(l.pid, Written(cwd), info.needsCustomMapping, info.needsCustomMapping, false,
                             info.topLevelFolder, RelativeText(info.relativePath))),
            None, None)
  }

  function WellKnownService(l: Listener): Service {
    var info := if l.endpoint.port in WELL_KNOWN_PORTS then WELL_KNOWN_PORTS[l.endpoint.port]
                else WellKnownInfo("", false, 0);
    Service("", l.endpoint, info.tcpPort, WellKnown,
            Some(ProcessInfo(l.pid, "", false, false, true, "", "")),
            None, Some(ServiceInfo(l.endpoint, info.subdomain, "")))
  }

  // ---- The scan ---------------------------------------------------------------------------

  class ScanState {
    var usedPorts: set<Port>
    var seenPid: set<int>
    var cwdCache: map<int, Option<Path>>

    constructor ()
      ensures usedPorts == {} && seenPid == {} && cwdCache == map[]
    {
      usedPorts, seenPid, cwdCache := {}, {}, map[];
    }

    method TryWellKnown(l: Listener) returns (r: Option<Service>)
      modifies this`usedPorts
      ensures var found := l.endpoint.port in WELL_KNOWN_PORTS && l.endpoint.port !in old(usedPorts);
              && r == (if found then Some(WellKnownService(l)) else None)
              && usedPorts == (if found then old(usedPorts) + {l.endpoint.port} else old(usedPorts))
      ensures Outcome(r, usedPorts, seenPid) == Classify(Outside, l, old(usedPorts), old(seenPid))
    {
      var port := l.endpoint.port;
      if port !in WELL_KNOWN_PORTS || port in usedPorts {
        return None;
      }
      usedPorts := usedPorts + {port};
      return Some(WellKnownService(l));
    }

    method TryListeningProcess(l: Listener, info: PathInfo, cwd: Path) returns (r: Option<Service>)
      modifies this`usedPorts, this`seenPid
      ensures var found := l.pid !in old(seenPid);
              && r == (if found then Some(ProjectService(l, cwd, info)) else None)
              && seenPid == old(seenPid) + {l.pid}
              && usedPorts == (if found then old(usedPorts) + {l.endpoint.port} else old(usedPorts))
      ensures Outcome(r, usedPorts, seenPid) == Classify(Project(cwd, info), l, old(usedPorts), old(seenPid))
    {
      if l.pid in seenPid {
        return None;
      }
      seenPid := seenPid + {l.pid};
      usedPorts := usedPorts + {l.endpoint.port};
      return Some(ProjectService(l, cwd, info));
    }

    method GetCwd(pid: int, answer: Option<Path>) returns (cwd: Option<Path>)
      modifies this`cwdCache
      ensures cwd == if pid in old(cwdCache) then old(cwdCache)[pid] else answer
      ensures cwdCache == old(cwdCache)[pid := cwd]
    {
      if pid in cwdCache {
        return cwdCache[pid];
      }
      cwdCache := cwdCache[pid := answer];
      return answer;
    }

    method ClassifyListener(basePaths: seq<Path>, l: Listener, answer: Option<Path>) returns (r: Option<Service>)
      modifies this
      ensures cwdCache == old(cwdCache)[l.pid := Directory(old(cwdCache), l, answer)]
      ensures Outcome(r, usedPorts, seenPid)
           == Classify(KindOf(basePaths, Directory(old(cwdCache), l, answer)), l, old(usedPorts), old(seenPid))
    {
      var cwd := GetCwd(l.pid, answer);
      if cwd.None? {
        r := TryWellKnown(l);
        return;
      }
      var basePath := FindBase(basePaths, cwd.value);
      if basePath.None? {
        r := TryWellKnown(l);
        return;
      }
      var info := ResolvePathInfo(basePath.value, cwd.value);
      if info.topLevelFolder == "" {
        return None;
      }
      r := TryListeningProcess(l, info, cwd.value);
    }
  }

  /** What a classification finds, and the ports and processes used after it. */
  datatype Outcome = Outcome(found: Option<Service>, used: set<Port>, seen: set<int>)

  /** The directory a listener is classified by: the first answer for its process. */
  function Directory(cache: map<int, Option<Path>>, l: Listener, answer: Option<Path>): Option<Path> {
    if l.pid in cache then cache[l.pid] else answer
  }

  /** One classification, by kind, in terms of the ports and processes used. */
  function Classify(kind: Kind, l: Listener, used: set<Port>, seen: set<int>): Outcome {
    match kind
    case Ignored => Outcome(None, used, seen)
    case Project(cwd, info) =>
      if l.pid in seen then Outcome(None, used, seen)
      else Outcome(Some(ProjectService(l, cwd, info)), used + {l.endpoint.port}, seen + {l.pid})
    case Outside =>
      if l.endpoint.port in WELL_KNOWN_PORTS && l.endpoint.port !in used
      then Outcome(Some(WellKnownService(l)), used + {l.endpoint.port}, seen)
      else Outcome(None, used, seen)
  }

  /** What the scan has gathered after a number of listeners. */
  datatype Progress = Progress(used: set<Port>, seen: set<int>, cache: map<int, Option<Path>>,
                               results: seq<Service>)

  function Next(basePaths: seq<Path>, l: Listener, answer: Option<Path>, p: Progress): Progress {
    var cwd := Directory(p.cache, l, answer);
    var o := Classify(KindOf(basePaths, cwd), l, p.used, p.seen);
    Progress(o.used, o.seen, p.cache[l.pid := cwd], if o.found.Some? then p.results + [o.found.value] else p.results)
  }

  function After(input: Input, n: nat): Progress
    requires input.Valid() && n <= |input.listeners|
  {
    if n == 0 then Progress({}, {}, map[], [])
    else Next(input.basePaths, input.listeners[n - 1], input.answers[n - 1], After(input, n - 1))
  }

  // The scan state after the first `n` listeners.

  ghost predicate UsedAfter(plan: Plan, n: nat, used: set<Port>)
    requires plan.Valid() && n <= |plan.listeners|
  {
    forall p :: p in used <==> plan.PortTaken(plan.Yielding(n), p)
  }

  ghost predicate SeenAfter(plan: Plan, n: nat, seen: set<int>)
    requires plan.Valid() && n <= |plan.listeners|
  {
    forall pid :: pid in seen <==> exists i :: 0 <= i < n && plan.kinds[i].Project? && plan.listeners[i].pid == pid
  }

  ghost predicate CacheAfter(plan: Plan, n: nat, answers: seq<Option<Path>>, cache: map<int, Option<Path>>)
    requires plan.Valid() && n <= |plan.listeners| == |answers|
  {
    && (forall pid :: pid in cache ==> exists i :: 0 <= i < n && plan.listeners[i].pid == pid)
    && (forall i {:trigger plan.First(i)} :: 0 <= i < n ==>
          plan.listeners[i].pid in cache && cache[plan.listeners[i].pid] == answers[plan.First(i)])
  }

  /** The services found, one per yielding listener, in listener order. */
  ghost predicate Found(plan: Plan, n: nat, results: seq<Service>)
    requires plan.Valid() && n <= |plan.listeners|
  {
    var where := plan.Yielding(n);
    |results| == |where| && forall k :: 0 <= k < |results| ==> results[k] == plan.ServiceAt(where[k])
  }

  ghost predicate Scanned(plan: Plan, n: nat, answers: seq<Option<Path>>, p: Progress)
    requires plan.Valid() && n <= |plan.listeners| == |answers|
  {
    match p
    case Progress(used, seen, cache, results) =>
      && UsedAfter(plan, n, used)
      && SeenAfter(plan, n, seen)
      && CacheAfter(plan, n, answers, cache)
      && Found(plan, n, results)
  }

  method ScanListeners(input: Input) returns (results: seq<Service>)
    requires input.Valid()
    ensures ScanFound(input, results)
  {
    var state := new ScanState();
    results := [];
    for i := 0 to |input.listeners|
      invariant fresh(state)
      invariant Progress(state.usedPorts, state.seenPid, state.cwdCache, results) == After(input, i)
    {
      ghost var before := After(input, i);
      var svc := state.ClassifyListener(input.basePaths, input.listeners[i], input.answers[i]);
      if svc.Some? {
        results := results + [svc.value];
      }
    }
    ScanDone(input);
  }

  /** The services of the listeners that should yield one, in listener order. */
  ghost predicate ScanFound(input: Input, results: seq<Service>)
    requires input.Valid()
  {
    input.Plan().Valid() && Found(input.Plan(), |input.listeners|, results)
  }

  ghost predicate ScannedInput(input: Input, n: nat, p: Progress)
    requires input.Valid() && n <= |input.listeners|
  {
    match input
    case Input(_, _, answers) => input.Plan().Valid() && Scanned(input.Plan(), n, answers, p)
  }

  lemma {:induction false} ScanDone(input: Input)
    requires input.Valid()
    ensures ScanFound(input, After(input, |input.listeners|).results)
  {
    AfterScanned(input, |input.listeners|);
  }

  /** Classifying listener by listener finds what each listener of the plan yields. */
  lemma {:induction false} AfterScanned(input: Input, n: nat)
    requires input.Valid() && n <= |input.listeners|
    ensures ScannedInput(input, n, After(input, n))
  {
    if n == 0 {
      ScanStart(input);
    } else {
      var before := After(input, n - 1);
      AfterScanned(input, n - 1);
      ScanNext(input, n - 1, before);
    }
  }

  lemma {:induction false} ScanStart(input: Input)
    requires input.Valid()
    ensures ScannedInput(input, 0, Progress({}, {}, map[], []))
  {
    input.PlanValid();
  }

  lemma {:induction false} ScanNext(input: Input, i: nat, p: Progress)
    requires input.Valid() && i < |input.listeners| && ScannedInput(input, i, p)
    ensures ScannedInput(input, i + 1, Next(input.basePaths, input.listeners[i], input.answers[i], p))
  {
    var plan, l := input.Plan(), input.listeners[i];
    CacheHit(plan, i, input.answers, p.cache);
    var cwd := Directory(p.cache, l, input.answers[i]);
    ScanStep(plan, i, input.answers, p, Classify(KindOf(input.basePaths, cwd), l, p.used, p.seen));
  }

  lemma {:induction false} ScanStep(plan: Plan, i: nat, answers: seq<Option<Path>>, p: Progress, o: Outcome)
    requires plan.Valid() && i < |plan.listeners| == |answers| && Scanned(plan, i, answers, p)
    requires o == Classify(plan.kinds[i], plan.listeners[i], p.used, p.seen)
    ensures Scanned(plan, i + 1, answers,
                    Progress(o.used, o.seen, p.cache[plan.listeners[i].pid := answers[plan.First(i)]],
                             if o.found.Some? then p.results + [o.found.value] else p.results))
  {
    CacheStep(plan, i, answers, p.cache);
    ClassifyIsYield(plan, i, p.used, p.seen);
    UsedStep(plan, i, p.used);
    SeenStep(plan, i, p.seen);
    FoundStep(plan, i, p.results, o.found);
  }

  lemma {:induction false} CacheHit(plan: Plan, i: nat, answers: seq<Option<Path>>, cache: map<int, Option<Path>>)
    requires plan.Valid() && i < |plan.listeners| == |answers| && CacheAfter(plan, i, answers, cache)
    ensures Directory(cache, plan.listeners[i], answers[i]) == answers[plan.First(i)]
  {
    var f := plan.First(i);
    if f < i {
      SameFirst(plan.listeners, f, i);
      assert plan.First(f) == f;
    } else if plan.listeners[i].pid in cache {
      var j :| 0 <= j < i && plan.listeners[j].pid == plan.listeners[i].pid;
      SameFirst(plan.listeners, i, j);
    }
  }

  lemma {:induction false} CacheStep(plan: Plan, i: nat, answers: seq<Option<Path>>, cache: map<int, Option<Path>>)
    requires plan.Valid() && i < |plan.listeners| == |answers| && CacheAfter(plan, i, answers, cache)
    ensures CacheAfter(plan, i + 1, answers, cache[plan.listeners[i].pid := answers[plan.First(i)]])
  {
    var pid := plan.listeners[i].pid;
    var cache' := cache[pid := answers[plan.First(i)]];
    forall j | 0 <= j < i + 1
      ensures plan.listeners[j].pid in cache' && cache'[plan.listeners[j].pid] == answers[plan.First(j)]
    {
      if plan.listeners[j].pid == pid {
        SameFirst(plan.listeners, j, i);
      } else {
        var f := plan.First(j);
      }
    }
    forall p | p in cache' ensures exists j :: 0 <= j < i + 1 && plan.listeners[j].pid == p {
      if p == pid {
        assert plan.listeners[i].pid == p;
      } else {
        var j :| 0 <= j < i && plan.listeners[j].pid == p;
      }
    }
  }

  lemma {:induction false} SeenIff(plan: Plan, i: nat, seen: set<int>)
    requires plan.Valid() && i < |plan.listeners| && SeenAfter(plan, i, seen)
    requires plan.kinds[i].Project?
    ensures plan.listeners[i].pid in seen <==> plan.First(i) < i
  {
    var f := plan.First(i);
    SameFirst(plan.listeners, f, i);
    assert plan.kinds[f] == plan.kinds[i];
    if plan.listeners[i].pid in seen {
      var j :| 0 <= j < i && plan.kinds[j].Project? && plan.listeners[j].pid == plan.listeners[i].pid;
      SameFirst(plan.listeners, i, j);
    }
  }

  lemma {:induction false} SeenStep(plan: Plan, i: nat, seen: set<int>)
    requires plan.Valid() && i < |plan.listeners| && SeenAfter(plan, i, seen)
    ensures SeenAfter(plan, i + 1, if plan.kinds[i].Project? then seen + {plan.listeners[i].pid} else seen)
  {
    var seen' := if plan.kinds[i].Project? then seen + {plan.listeners[i].pid} else seen;
    forall pid | pid in seen'
      ensures exists j :: 0 <= j < i + 1 && plan.kinds[j].Project? && plan.listeners[j].pid == pid
    {
      var j :| 0 <= j <= i && plan.kinds[j].Project? && plan.listeners[j].pid == pid;
    }
  }

  lemma {:induction false} UsedStep(plan: Plan, i: nat, used: set<Port>)
    requires plan.Valid() && i < |plan.listeners| && UsedAfter(plan, i, used)
    ensures UsedAfter(plan, i + 1,
              if plan.Yields(i, plan.Yielding(i)) then used + {plan.listeners[i].endpoint.port} else used)
  {
    var y, y' := plan.Yielding(i), plan.Yielding(i + 1);
    forall j ensures j in y' <==> j in y || (j == i && plan.Yields(i, y)) {}
    forall p
      ensures plan.PortTaken(y', p) <==>
                plan.PortTaken(y, p) || (plan.Yields(i, y) && p == plan.listeners[i].endpoint.port)
    {
      if plan.Yields(i, y) && p == plan.listeners[i].endpoint.port {
        assert i in y';
      }
      if plan.PortTaken(y, p) {
        var j :| j in y && j < |plan.listeners| && plan.listeners[j].endpoint.port == p;
        assert j in y';
      }
    }
  }

  lemma {:induction false} ClassifyIsYield(plan: Plan, i: nat, used: set<Port>, seen: set<int>)
    requires plan.Valid() && i < |plan.listeners| && UsedAfter(plan, i, used) && SeenAfter(plan, i, seen)
    ensures var o := Classify(plan.kinds[i], plan.listeners[i], used, seen);
            && o.found == (if plan.Yields(i, plan.Yielding(i)) then Some(plan.ServiceAt(i)) else None)
            && o.used == (if plan.Yields(i, plan.Yielding(i)) then used + {plan.listeners[i].endpoint.port} else used)
            && o.seen == (if plan.kinds[i].Project? then seen + {plan.listeners[i].pid} else seen)
  {
    if plan.kinds[i].Project? {
      SeenIff(plan, i, seen);
    }
  }

  lemma {:induction false} FoundStep(plan: Plan, i: nat, results: seq<Service>, r: Option<Service>)
    requires plan.Valid() && i < |plan.listeners| && Found(plan, i, results)
    requires r == if plan.Yields(i, plan.Yielding(i)) then Some(plan.ServiceAt(i)) else None
    ensures Found(plan, i + 1, if r.Some? then results + [r.value] else results)
  {
    var where, where' := plan.Yielding(i), plan.Yielding(i + 1);
    var results' := if r.Some? then results + [r.value] else results;
    assert where' == where + if plan.Yields(i, plan.Yielding(i)) then [i] else [];
    forall k | 0 <= k < |results'| ensures results'[k] == plan.ServiceAt(where'[k]) {}
  }
}
